/**
 What every run of the recorder keeps: caches and store agree from mission start to mission
 end, each exported record is the log of the commands about it, and focus ranges stay in order.
 */
module RecorderProofs {
  import opened Wrappers
  import opened Core
  import opened ExportTypes
  import opened Recorder

  // ---- invariants ----

  /** The name and ID indexes of the markers; IDs are exactly 1 to nextId. */
  ghost predicate MarkersOk(m: MarkerIndex) {
    && (forall i :: i in m.records <==> 1 <= i <= m.nextId)
    && (forall i :: i in m.records ==> m.records[i].marker.id == i)
    && (forall n :: n in m.ids ==> m.ids[n] in m.records && m.records[m.ids[n]].marker.markerName == n)
  }

  ghost predicate RangesOk(ranges: seq<FocusRange>) {
    && (forall i :: 0 <= i < |ranges| ==> 0 < ranges[i].start < ranges[i].end)
    && (forall i, j :: 0 <= i < j < |ranges| ==> ranges[i].end <= ranges[j].start)
  }

  /** Completed ranges in order, and an open start at or after the last end. */
  ghost predicate FocusOk(f: Focus) {
    && RangesOk(f.ranges)
    && (f.open.Some? ==>
          f.open.value > 0 && forall i :: 0 <= i < |f.ranges| ==> f.ranges[i].end <= f.open.value)
  }

  ghost predicate StoreOk(st: Store) {
    && (forall k :: k in st.soldiers ==> st.soldiers[k].soldier.id == k)
    && (forall k :: k in st.vehicles ==> st.vehicles[k].vehicle.id == k)
    && (forall k :: k in st.placed ==> st.placed[k].placedObject.id == k)
    && MarkersOk(st.markers)
    && FocusOk(st.focus)
  }

  /** The cached soldier is what the builder will derive from the record. */
  ghost predicate SoldierAgrees(cached: Soldier, r: SoldierRecord) {
    && cached.id == r.soldier.id && cached.groupId == r.soldier.groupId && cached.side == r.soldier.side
    && (cached.isPlayer, cached.unitName) == PlayerFold((r.soldier.isPlayer, r.soldier.unitName), r.states)
  }

  ghost predicate SoldiersSynced(cache: map<uint16, Soldier>, records: map<uint16, SoldierRecord>) {
    && cache.Keys == records.Keys
    && forall id :: id in cache ==> cache[id].id == id && SoldierAgrees(cache[id], records[id])
  }

  /** Caches and store know the same soldiers, vehicles, placed objects and markers. */
  ghost predicate Synced(s: Snapshot) {
    && SoldiersSynced(s.caches.soldiers, s.store.soldiers)
    && s.caches.vehicles.Keys == s.store.vehicles.Keys
    && s.caches.placed.Keys == s.store.placed.Keys
    && s.caches.markerIds == s.store.markers.ids
  }

  lemma PlayerFoldSnoc(start: (bool, string), states: seq<SoldierState>, s: SoldierState)
    ensures var before := PlayerFold(start, states);
      PlayerFold(start, states + [s])
      == if s.isPlayer then (true, if s.unitName != "" then s.unitName else before.1) else before
  {
    assert (states + [s])[..|states|] == states;
  }

  /** The guarded cache update does what the builder's unguarded fold does. */
  lemma TakeoverIsFold(cached: Soldier, r: SoldierRecord, o: SoldierState)
    requires SoldierAgrees(cached, r)
    ensures SoldierAgrees(Takeover(cached, o), r.(states := r.states + [FillState(o, cached)]))
  {
    PlayerFoldSnoc((r.soldier.isPlayer, r.soldier.unitName), r.states, FillState(o, cached));
  }

  lemma SoldierStepSynced(cache: map<uint16, Soldier>, records: map<uint16, SoldierRecord>, c: SoldierCommand)
    requires SoldiersSynced(cache, records)
    ensures var r := StepSoldier(cache, records, c); SoldiersSynced(r.0, r.1)
  {
    if c.RecordSoldier? && c.state.soldierId in cache {
      TakeoverIsFold(cache[c.state.soldierId], records[c.state.soldierId], c.state);
    }
  }

  lemma MarkerStepOk(cache: map<string, nat>, index: MarkerIndex, c: MarkerCommand)
    requires MarkersOk(index)
    ensures MarkersOk(StepMarker(cache, index, c).1)
  {
  }

  lemma FocusStepOk(f: Focus, c: FocusCommand)
    requires FocusOk(f)
    ensures FocusOk(StepFocus(f, c).0)
  {
  }

  /** What a start would make of the ranges, and what an end would. */
  function WithStart(f: Focus, frame: Frame): Focus { Focus(f.ranges, Some(frame)) }

  function WithEnd(f: Focus, frame: Frame): Focus
    requires f.open.Some?
  {
    Focus(f.ranges + [FocusRange(f.open.value, frame)], None)
  }

  /**
   A start opens a range and an end completes it exactly when that keeps the ranges in order;
   otherwise nothing changes. It is an error to break the order, and to start at frame 0; a start
   in an open range and an end without one are ignored.
   */
  lemma FocusExact(f: Focus, frame: Frame)
    requires FocusOk(f)
    ensures StepFocus(f, FocusStart(frame)).0
         == if f.open.None? && FocusOk(WithStart(f, frame)) then WithStart(f, frame) else f
    ensures StepFocus(f, FocusStart(frame)).1
       <==> frame > 0 && (f.open.Some? || FocusOk(WithStart(f, frame)))
    ensures StepFocus(f, FocusEnd(frame)).0
         == if f.open.Some? && FocusOk(WithEnd(f, frame)) then WithEnd(f, frame) else f
    ensures StepFocus(f, FocusEnd(frame)).1 <==> f.open.None? || FocusOk(WithEnd(f, frame))
  {
    if f.ranges != [] {
      var n := |f.ranges| - 1;
      assert forall i :: 0 <= i < n ==> f.ranges[i].end <= f.ranges[n].start;
    }
    if f.open.Some? {
      var longer := f.ranges + [FocusRange(f.open.value, frame)];
      assert longer[|f.ranges|] == FocusRange(f.open.value, frame);
    }
  }

  lemma StepKeepsStoreOk(s: Snapshot, c: Command)
    requires StoreOk(s.store)
    ensures StoreOk(Step(s, c).0.store)
  {
    match c
    case OnMarker(mc) => MarkerStepOk(s.caches.markerIds, s.store.markers, mc);
    case OnFocus(fc) => FocusStepOk(s.store.focus, fc);
    case _ =>
  }

  /** Only the end of a mission can take caches and store apart. */
  lemma StepKeepsSynced(s: Snapshot, c: Command)
    requires Synced(s) && !c.EndMission?
    ensures Synced(Step(s, c).0)
  {
    if c.OnSoldier? {
      SoldierStepSynced(s.caches.soldiers, s.store.soldiers, c.soldierCommand);
    }
  }

  lemma {:induction false} RunKeepsStoreOk(s: Snapshot, cmds: seq<Command>)
    requires StoreOk(s.store)
    ensures StoreOk(Run(s, cmds).store)
  {
    if cmds != [] {
      RunKeepsStoreOk(s, cmds[..|cmds| - 1]);
      StepKeepsStoreOk(Run(s, cmds[..|cmds| - 1]), cmds[|cmds| - 1]);
    }
  }

  /** A mission was started and not ended since. */
  ghost predicate InMission(cmds: seq<Command>) {
    cmds != [] &&
    var c := cmds[|cmds| - 1];
    c.StartMission? || (!c.EndMission? && InMission(cmds[..|cmds| - 1]))
  }

  /**
   Every run, from any state and through any number of missions: while a mission is on, the
   caches agree with the store.
   */
  lemma {:induction false} SyncedInMission(s: Snapshot, cmds: seq<Command>)
    requires InMission(cmds)
    ensures Synced(Run(s, cmds)) && Run(s, cmds).store.mission.Some? && Run(s, cmds).store.world.Some?
  {
    var before, c := cmds[..|cmds| - 1], cmds[|cmds| - 1];
    if !c.StartMission? {
      SyncedInMission(s, before);
      StepKeepsSynced(Run(s, before), c);
    }
  }

  // ---- no accepted update is lost during a mission ----

  /** The handler reports success and the store keeps nothing. */
  ghost predicate Loses(s: Snapshot, c: Command) {
    Step(s, c).1 && Step(s, c).0.store == s.store
  }

  /** A state, a placed-object event or a marker move: an update that goes by a cache. */
  predicate IsUpdate(c: Command) {
    || (c.OnSoldier? && c.soldierCommand.RecordSoldier?)
    || (c.OnVehicle? && c.vehicleCommand.RecordVehicle?)
    || (c.OnPlaced? && c.placedCommand.PlacedEvent?)
    || (c.OnMarker? && c.markerCommand.MoveMarker?)
  }

  /** The caches know the target of an update, the store does not. */
  ghost predicate StaleTarget(s: Snapshot, c: Command)
    requires IsUpdate(c)
  {
    match c
    case OnSoldier(sc) => sc.state.soldierId in s.caches.soldiers && sc.state.soldierId !in s.store.soldiers
    case OnVehicle(vc) => vc.state.vehicleId in s.caches.vehicles && vc.state.vehicleId !in s.store.vehicles
    case OnPlaced(pc) => pc.event.placedId in s.caches.placed && pc.event.placedId !in s.store.placed
    case OnMarker(mc) => mc.name in s.caches.markerIds && s.caches.markerIds[mc.name] !in s.store.markers.records
    case _ => false
  }

  /** An update is accepted and lost exactly when its target is stale. */
  lemma LossExact(s: Snapshot, c: Command)
    requires IsUpdate(c)
    ensures Loses(s, c) <==> StaleTarget(s, c)
  {
    var st := Step(s, c).0.store;
    match c
    case OnSoldier(sc) =>
      var id := sc.state.soldierId;
      if id in s.caches.soldiers && id in s.store.soldiers {
        assert |st.soldiers[id].states| == |s.store.soldiers[id].states| + 1;
      }
    case OnVehicle(vc) =>
      var id := vc.state.vehicleId;
      if id in s.caches.vehicles && id in s.store.vehicles {
        assert |st.vehicles[id].states| == |s.store.vehicles[id].states| + 1;
      }
    case OnPlaced(pc) =>
      var id := pc.event.placedId;
      if id in s.caches.placed && id in s.store.placed {
        assert |st.placed[id].events| == |s.store.placed[id].events| + 1;
      }
    case OnMarker(mc) =>
      if mc.name in s.caches.markerIds && s.caches.markerIds[mc.name] in s.store.markers.records {
        var id := s.caches.markerIds[mc.name];
        assert |st.markers.records[id].states| == |s.store.markers.records[id].states| + 1;
      }
  }

  lemma NothingLostInMission(s: Snapshot, cmds: seq<Command>, c: Command)
    requires StoreOk(s.store) && InMission(cmds) && IsUpdate(c)
    ensures !Loses(Run(s, cmds), c)
  {
    SyncedInMission(s, cmds);
    RunKeepsStoreOk(s, cmds);
    LossExact(Run(s, cmds), c);
  }

  /**
   Every soldier the caches know at the end of any mission: after EndMission its states are
   still accepted, and lost.
   */
  lemma LostAfterEnd(s: Snapshot, cmds: seq<Command>, state: SoldierState)
    requires InMission(cmds) && state.soldierId in Run(s, cmds).caches.soldiers
    ensures Loses(Run(s, cmds + [EndMission]), OnSoldier(RecordSoldier(state)))
  {
    SyncedInMission(s, cmds);
    assert (cmds + [EndMission])[..|cmds|] == cmds;
    LossExact(Run(s, cmds + [EndMission]), OnSoldier(RecordSoldier(state)));
  }

  predicate IsDeletion(c: Command) {
    || (c.OnSoldier? && c.soldierCommand.DeleteSoldier?)
    || (c.OnVehicle? && c.vehicleCommand.DeleteVehicle?)
    || (c.OnMarker? && c.markerCommand.DeleteMarker?)
  }

  /** There is nothing to delete, or it is already deleted at that frame. */
  ghost predicate NothingToDelete(st: Store, c: Command)
    requires IsDeletion(c)
  {
    match c
    case OnSoldier(sc) => sc.id !in st.soldiers || st.soldiers[sc.id].soldier.deleteFrame == sc.frame
    case OnVehicle(vc) => vc.id !in st.vehicles || st.vehicles[vc.id].vehicle.deleteFrame == vc.frame
    case OnMarker(mc) =>
      var r := MarkerNamed(st.markers, mc.name);
      r.None? || r.value.marker.endFrame == mc.endFrame
    case _ => false
  }

  /** Deletions ask no cache: each is accepted, and without effect exactly when there is nothing to delete. */
  lemma DeletionLossExact(s: Snapshot, c: Command)
    requires IsDeletion(c)
    ensures Step(s, c).1 && (Loses(s, c) <==> NothingToDelete(s.store, c))
  {
    var st := Step(s, c).0.store;
    match c
    case OnSoldier(sc) =>
      if sc.id in s.store.soldiers {
        assert st.soldiers[sc.id].soldier.deleteFrame == sc.frame;
        assert s.store.soldiers[sc.id].soldier.deleteFrame == sc.frame ==> st.soldiers == s.store.soldiers;
      }
    case OnVehicle(vc) =>
      if vc.id in s.store.vehicles {
        assert st.vehicles[vc.id].vehicle.deleteFrame == vc.frame;
        assert s.store.vehicles[vc.id].vehicle.deleteFrame == vc.frame ==> st.vehicles == s.store.vehicles;
      }
    case OnMarker(mc) =>
      var r := MarkerNamed(s.store.markers, mc.name);
      if r.Some? {
        var id := s.store.markers.ids[mc.name];
        assert st.markers.records[id].marker.endFrame == mc.endFrame;
        assert r.value.marker.endFrame == mc.endFrame ==> st.markers.records == s.store.markers.records;
      }
  }

  /** The caches do not know the target of an update. */
  predicate UnknownTarget(c: Caches, cmd: Command)
    requires IsUpdate(cmd)
  {
    match cmd
    case OnSoldier(sc) => sc.state.soldierId !in c.soldiers
    case OnVehicle(vc) => vc.state.vehicleId !in c.vehicles
    case OnPlaced(pc) => pc.event.placedId !in c.placed
    case OnMarker(mc) => mc.name !in c.markerIds
    case _ => false
  }

  /**
   The errors of the handlers: an update of something the caches do not know, a focus change out
   of order, the end of no mission; and nothing else.
   */
  lemma RefusedExact(s: Snapshot, c: Command)
    requires FocusOk(s.store.focus)
    ensures var f := s.store.focus;
      !Step(s, c).1
      <==> || (IsUpdate(c) && UnknownTarget(s.caches, c))
           || (c.OnFocus? && c.focusCommand.FocusStart?
               && (c.focusCommand.frame == 0 || (f.open.None? && !FocusOk(WithStart(f, c.focusCommand.frame)))))
           || (c.OnFocus? && c.focusCommand.FocusEnd? && f.open.Some? && !FocusOk(WithEnd(f, c.focusCommand.frame)))
           || (c.EndMission? && s.store.mission.None?)
  {
    if c.OnFocus? {
      FocusExact(s.store.focus, c.focusCommand.frame);
    }
  }

  // ---- each record is the log of the commands about it ----

  /** No mission starts or ends. */
  ghost predicate Recording(cmds: seq<Command>) {
    forall c :: c in cmds ==> !c.StartMission? && !c.EndMission?
  }

  function NextSoldier(log: Option<SoldierRecord>, c: Command, id: uint16): Option<SoldierRecord> {
    if !c.OnSoldier? then log
    else
      match c.soldierCommand
      case NewSoldier(o) => if o.id == id then Some(SoldierRecord(o, [], [])) else log
      case RecordSoldier(o) =>
        if o.soldierId == id && log.Some? then
          var group := if o.groupId == "" then log.value.soldier.groupId else o.groupId;
          var side := if o.side == "" then log.value.soldier.side else o.side;
          Some(log.value.(states := log.value.states + [o.(groupId := group, side := side)]))
        else log
      case DeleteSoldier(i, frame) =>
        if i == id && log.Some?
        then Some(log.value.(soldier := log.value.soldier.(deleteFrame := frame))) else log
  }

  /** What the commands about one soldier ID say, without caches or other records. */
  function SoldierLog(cmds: seq<Command>, id: uint16): Option<SoldierRecord> {
    if cmds == [] then None else NextSoldier(SoldierLog(cmds[..|cmds| - 1], id), cmds[|cmds| - 1], id)
  }

  function NextVehicle(log: Option<VehicleRecord>, c: Command, id: uint16): Option<VehicleRecord> {
    if !c.OnVehicle? then log
    else
      match c.vehicleCommand
      case NewVehicle(o) => if o.id == id then Some(VehicleRecord(o, [])) else log
      case RecordVehicle(o) =>
        if o.vehicleId == id && log.Some? then Some(log.value.(states := log.value.states + [o])) else log
      case DeleteVehicle(i, frame) =>
        if i == id && log.Some?
        then Some(log.value.(vehicle := log.value.vehicle.(deleteFrame := frame))) else log
  }

  function VehicleLog(cmds: seq<Command>, id: uint16): Option<VehicleRecord> {
    if cmds == [] then None else NextVehicle(VehicleLog(cmds[..|cmds| - 1], id), cmds[|cmds| - 1], id)
  }

  function NextPlaced(log: Option<PlacedRecord>, c: Command, id: uint16): Option<PlacedRecord> {
    if !c.OnPlaced? then log
    else
      match c.placedCommand
      case NewPlaced(o) => if o.id == id then Some(PlacedRecord(o, [])) else log
      case PlacedEvent(e) =>
        if e.placedId == id && log.Some? then Some(log.value.(events := log.value.events + [e])) else log
  }

  function PlacedLog(cmds: seq<Command>, id: uint16): Option<PlacedRecord> {
    if cmds == [] then None else NextPlaced(PlacedLog(cmds[..|cmds| - 1], id), cmds[|cmds| - 1], id)
  }

  function MarkersCreated(cmds: seq<Command>): nat {
    if cmds == [] then 0
    else
      var c := cmds[|cmds| - 1];
      MarkersCreated(cmds[..|cmds| - 1]) + if c.OnMarker? && c.markerCommand.CreateMarker? then 1 else 0
  }

  /** created is the number of markers created before this command. */
  function NextMarker(log: Option<MarkerData>, created: nat, c: Command, name: string): Option<MarkerData> {
    if !c.OnMarker? then log
    else
      match c.markerCommand
      case CreateMarker(m) => if m.markerName == name then Some(MarkerData(m.(id := created + 1), [])) else log
      case MoveMarker(n, s) =>
        if n == name && log.Some?
        then Some(log.value.(states := log.value.states + [s.(markerId := log.value.marker.id)])) else log
      case DeleteMarker(n, frame) =>
        if n == name && log.Some?
        then Some(log.value.(marker := log.value.marker.(endFrame := frame))) else log
  }

  /**
   The marker a name stands for: the last one created under it, with the moves and the deletion
   that named it since. Its ID is its place in the order of creation.
   */
  function MarkerLog(cmds: seq<Command>, name: string): Option<MarkerData> {
    if cmds == [] then None
    else
      var before := cmds[..|cmds| - 1];
      NextMarker(MarkerLog(before, name), MarkersCreated(before), cmds[|cmds| - 1], name)
  }

  function Get<K, V>(m: map<K, V>, k: K): Option<V> { if k in m then Some(m[k]) else None }

  function MarkerNamed(m: MarkerIndex, name: string): Option<MarkerData> {
    if name in m.ids && m.ids[name] in m.records then Some(m.records[m.ids[name]]) else None
  }

  /** The run of a mission: its start, then cmds. */
  function MissionRun(s: Snapshot, m: Mission, w: World, cmds: seq<Command>): Snapshot {
    Run(Step(s, StartMission(m, w)).0, cmds)
  }

  lemma {:induction false} MissionIsSynced(s: Snapshot, m: Mission, w: World, cmds: seq<Command>)
    requires Recording(cmds)
    ensures Synced(MissionRun(s, m, w, cmds)) && StoreOk(MissionRun(s, m, w, cmds).store)
  {
    if cmds != [] {
      var before := cmds[..|cmds| - 1];
      MissionIsSynced(s, m, w, before);
      StepKeepsSynced(MissionRun(s, m, w, before), cmds[|cmds| - 1]);
      StepKeepsStoreOk(MissionRun(s, m, w, before), cmds[|cmds| - 1]);
    }
  }

  lemma SoldierStepIsNext(s: Snapshot, c: Command, id: uint16)
    requires Synced(s) && StoreOk(s.store) && !c.StartMission? && !c.EndMission?
    ensures Get(Step(s, c).0.store.soldiers, id) == NextSoldier(Get(s.store.soldiers, id), c, id)
  {
  }

  lemma VehicleStepIsNext(s: Snapshot, c: Command, id: uint16)
    requires Synced(s) && !c.StartMission? && !c.EndMission?
    ensures Get(Step(s, c).0.store.vehicles, id) == NextVehicle(Get(s.store.vehicles, id), c, id)
  {
  }

  lemma PlacedStepIsNext(s: Snapshot, c: Command, id: uint16)
    requires Synced(s) && !c.StartMission? && !c.EndMission?
    ensures Get(Step(s, c).0.store.placed, id) == NextPlaced(Get(s.store.placed, id), c, id)
  {
  }

  lemma MarkerStepIsNext(s: Snapshot, c: Command, name: string)
    requires Synced(s) && StoreOk(s.store) && !c.StartMission? && !c.EndMission?
    ensures MarkerNamed(Step(s, c).0.store.markers, name)
         == NextMarker(MarkerNamed(s.store.markers, name), s.store.markers.nextId, c, name)
  {
  }

  ghost predicate IsLog(st: Store, cmds: seq<Command>, id: uint16, name: string) {
    && Get(st.soldiers, id) == SoldierLog(cmds, id)
    && Get(st.vehicles, id) == VehicleLog(cmds, id)
    && Get(st.placed, id) == PlacedLog(cmds, id)
    && MarkerNamed(st.markers, name) == MarkerLog(cmds, name)
    && st.markers.nextId == MarkersCreated(cmds)
  }

  lemma LogStep(s: Snapshot, cmds: seq<Command>, c: Command, id: uint16, name: string)
    requires Synced(s) && StoreOk(s.store) && !c.StartMission? && !c.EndMission?
    requires IsLog(s.store, cmds, id, name)
    ensures IsLog(Step(s, c).0.store, cmds + [c], id, name)
  {
    assert (cmds + [c])[..|cmds|] == cmds;
    SoldierStepIsNext(s, c, id);
    VehicleStepIsNext(s, c, id);
    PlacedStepIsNext(s, c, id);
    MarkerStepIsNext(s, c, name);
  }

  /**
   After every mission so far: the soldier, vehicle and placed object recorded under an ID and
   the marker exported under a name are exactly the logs of the commands about them. A move,
   which goes through the cache and the ID index, and a deletion, which goes through the name
   index, reach the marker that is exported, also after its name was created again.
   */
  lemma {:induction false} RecordsAreLogs(s: Snapshot, m: Mission, w: World, cmds: seq<Command>,
                                          id: uint16, name: string)
    requires Recording(cmds)
    ensures IsLog(MissionRun(s, m, w, cmds).store, cmds, id, name)
  {
    if cmds != [] {
      var before, c := cmds[..|cmds| - 1], cmds[|cmds| - 1];
      RecordsAreLogs(s, m, w, before, id, name);
      MissionIsSynced(s, m, w, before);
      LogStep(MissionRun(s, m, w, before), before, c, id, name);
      assert cmds == before + [c];
    }
  }

  /** Nothing recorded before a mission start can be seen afterwards. */
  lemma MissionIsolation(s1: Snapshot, s2: Snapshot, m: Mission, w: World, cmds: seq<Command>)
    ensures MissionRun(s1, m, w, cmds) == MissionRun(s2, m, w, cmds)
  {
  }

  /** The data of every mission can be exported, with records filed under their own IDs. */
  lemma ReachableDataOk(s: Snapshot, cmds: seq<Command>)
    requires StoreOk(s.store) && InMission(cmds)
    ensures var st := Run(s, cmds).store;
      && st.mission.Some? && st.world.Some?
      && (forall n :: n in st.markers.ids ==> st.markers.ids[n] in st.markers.records)
      && KeysAgree(DataOf(st))
  {
    SyncedInMission(s, cmds);
    RunKeepsStoreOk(s, cmds);
  }
}
