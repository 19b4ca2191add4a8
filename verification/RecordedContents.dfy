/**
 From the commands of a mission to its exported data: everything that is exported is the log of
 the commands since the mission started, and everything logged is exported.
 */
module RecordedContents {
  import opened Wrappers
  import opened Core
  import opened Frames
  import opened Sorting
  import opened Recorder
  import opened RecorderProofs
  import opened MissionExport
  import opened MemoryBackend
  import opened ExportTypes
  import opened ExportSpec
  import opened V1Rows
  import opened V1Reading
  import Json

  // ---- logs of events ----

  function GeneralIn(c: Command): seq<GeneralEvent> {
    if c.OnEvent? && c.eventCommand.General? then [c.eventCommand.general] else []
  }

  function SectorIn(c: Command): seq<SectorEvent> {
    if c.OnEvent? && c.eventCommand.Sector? then [c.eventCommand.sector] else []
  }

  function EndIn(c: Command): seq<EndMissionEvent> {
    if c.OnEvent? && c.eventCommand.EndEvent? then [c.eventCommand.endEvent] else []
  }

  function TimeIn(c: Command): seq<TimeState> {
    if c.OnEvent? && c.eventCommand.Time? then [c.eventCommand.time] else []
  }

  /** The ID as that of a soldier the commands have created. */
  function AsSoldier(cmds: seq<Command>, id: uint16): Option<nat> {
    if SoldierLog(cmds, id).Some? then Some(id as nat) else None
  }

  /** The ID as that of a vehicle the commands have created, when no soldier has it. */
  function AsVehicle(cmds: seq<Command>, id: uint16): Option<nat> {
    if SoldierLog(cmds, id).None? && VehicleLog(cmds, id).Some? then Some(id as nat) else None
  }

  /** A kill as it is recorded after some commands: who was killed, and who killed. */
  function KillAfter(cmds: seq<Command>, k: CombatEvent, victim: uint16, killer: uint16): CombatEvent {
    CombatEvent(k.captureFrame, AsSoldier(cmds, victim), AsVehicle(cmds, victim),
                AsSoldier(cmds, killer), AsVehicle(cmds, killer), k.eventText, k.distance)
  }

  function KillLog(cmds: seq<Command>): seq<CombatEvent> {
    if cmds == [] then []
    else
      var before, c := cmds[..|cmds| - 1], cmds[|cmds| - 1];
      KillLog(before)
      + if c.OnEvent? && c.eventCommand.Kill?
        then [KillAfter(before, c.eventCommand.kill, c.eventCommand.victim, c.eventCommand.killer)] else []
  }

  /** A hit on a soldier or a vehicle that the commands have created; any other is left out. */
  function HitAfter(cmds: seq<Command>, h: HitPart): seq<ProjectileHit> {
    if SoldierLog(cmds, h.entityId).Some? then [ProjectileHit(h.captureFrame, h.position, Some(h.entityId), None)]
    else if VehicleLog(cmds, h.entityId).Some? then [ProjectileHit(h.captureFrame, h.position, None, Some(h.entityId))]
    else []
  }

  function HitsAfter(cmds: seq<Command>, hs: seq<HitPart>): seq<ProjectileHit> {
    FlatMap((h: HitPart) => HitAfter(cmds, h), hs)
  }

  function ProjectileLog(cmds: seq<Command>): seq<ProjectileEvent> {
    if cmds == [] then []
    else
      var before, c := cmds[..|cmds| - 1], cmds[|cmds| - 1];
      ProjectileLog(before)
      + if c.OnEvent? && c.eventCommand.Projectile?
        then [c.eventCommand.projectile.(hits := HitsAfter(before, c.eventCommand.hitParts))] else []
  }

  ghost predicate EventsAreLogs(events: EventLists, cmds: seq<Command>) {
    && events.general == FlatMap(GeneralIn, cmds) && events.sector == FlatMap(SectorIn, cmds)
    && events.endMission == FlatMap(EndIn, cmds) && events.times == FlatMap(TimeIn, cmds)
    && events.kills == KillLog(cmds) && events.projectiles == ProjectileLog(cmds)
  }

  // ---- what the caches know is what was created ----

  /** The caches hold the entities the commands have created. */
  ghost predicate CachesKnow(c: Caches, cmds: seq<Command>) {
    && (forall id :: id in c.soldiers <==> SoldierLog(cmds, id).Some?)
    && (forall id :: id in c.vehicles <==> VehicleLog(cmds, id).Some?)
  }

  lemma MissionCachesKnow(s: Snapshot, m: Mission, w: World, cmds: seq<Command>)
    requires Recording(cmds)
    ensures CachesKnow(MissionRun(s, m, w, cmds).caches, cmds)
  {
    var end := MissionRun(s, m, w, cmds);
    MissionIsSynced(s, m, w, cmds);
    forall id ensures id in end.caches.soldiers <==> SoldierLog(cmds, id).Some?
              ensures id in end.caches.vehicles <==> VehicleLog(cmds, id).Some?
    {
      RecordsAreLogs(s, m, w, cmds, id, "");
      assert id in end.caches.soldiers <==> id in end.store.soldiers;
      assert id in end.caches.vehicles <==> id in end.store.vehicles;
    }
  }

  lemma KillIsKillAfter(c: Caches, cmds: seq<Command>, k: CombatEvent, victim: uint16, killer: uint16)
    requires CachesKnow(c, cmds)
    ensures ClassifyKill(c, k, victim, killer) == KillAfter(cmds, k, victim, killer)
  {
  }

  lemma {:induction false} HitsAreHitsAfter(c: Caches, cmds: seq<Command>, hs: seq<HitPart>)
    requires CachesKnow(c, cmds)
    ensures ClassifyHits(c, hs) == HitsAfter(cmds, hs)
  {
    if hs != [] {
      HitsAreHitsAfter(c, cmds, hs[..|hs| - 1]);
      assert ClassifyHit(c, hs[|hs| - 1]) == HitAfter(cmds, hs[|hs| - 1]);
    }
  }

  lemma LogsMore(cmds: seq<Command>, c: Command)
    ensures FlatMap(GeneralIn, cmds + [c]) == FlatMap(GeneralIn, cmds) + GeneralIn(c)
    ensures FlatMap(SectorIn, cmds + [c]) == FlatMap(SectorIn, cmds) + SectorIn(c)
    ensures FlatMap(EndIn, cmds + [c]) == FlatMap(EndIn, cmds) + EndIn(c)
    ensures FlatMap(TimeIn, cmds + [c]) == FlatMap(TimeIn, cmds) + TimeIn(c)
  {
    assert (cmds + [c])[..|cmds|] == cmds;
  }

  lemma EventLogsMore(cmds: seq<Command>, c: Command)
    ensures KillLog(cmds + [c])
         == KillLog(cmds)
            + if c.OnEvent? && c.eventCommand.Kill?
              then [KillAfter(cmds, c.eventCommand.kill, c.eventCommand.victim, c.eventCommand.killer)] else []
    ensures ProjectileLog(cmds + [c])
         == ProjectileLog(cmds)
            + if c.OnEvent? && c.eventCommand.Projectile?
              then [c.eventCommand.projectile.(hits := HitsAfter(cmds, c.eventCommand.hitParts))] else []
  {
    assert (cmds + [c])[..|cmds|] == cmds;
  }

  lemma EventStepIsLog(caches: Caches, events: EventLists, cmds: seq<Command>, e: EventCommand)
    requires CachesKnow(caches, cmds) && EventsAreLogs(events, cmds)
    ensures EventsAreLogs(StepEvents(caches, events, e), cmds + [OnEvent(e)])
  {
    LogsMore(cmds, OnEvent(e));
    EventLogsMore(cmds, OnEvent(e));
    EmptyTails(events);
    if e.Kill? {
      KillIsKillAfter(caches, cmds, e.kill, e.victim, e.killer);
    } else if e.Projectile? {
      HitsAreHitsAfter(caches, cmds, e.hitParts);
    }
  }

  lemma EmptyTails(events: EventLists)
    ensures events.general + [] == events.general && events.sector + [] == events.sector
    ensures events.endMission + [] == events.endMission && events.times + [] == events.times
    ensures events.kills + [] == events.kills && events.projectiles + [] == events.projectiles
  {
  }

  lemma OtherStepIsLog(events: EventLists, cmds: seq<Command>, c: Command)
    requires EventsAreLogs(events, cmds) && !c.OnEvent?
    ensures EventsAreLogs(events, cmds + [c])
  {
    LogsMore(cmds, c);
    EventLogsMore(cmds, c);
    EmptyTails(events);
  }

  /** The recorded event lists of a mission are the logs of its commands. */
  lemma {:induction false} EventsAreMissionLogs(s: Snapshot, m: Mission, w: World, cmds: seq<Command>)
    requires Recording(cmds)
    ensures EventsAreLogs(MissionRun(s, m, w, cmds).store.events, cmds)
    ensures MissionRun(s, m, w, cmds).store.mission == Some(m) && MissionRun(s, m, w, cmds).store.world == Some(w)
  {
    if cmds != [] {
      var before, c := cmds[..|cmds| - 1], cmds[|cmds| - 1];
      var mid := MissionRun(s, m, w, before);
      EventsAreMissionLogs(s, m, w, before);
      assert cmds == before + [c];
      if c.OnEvent? {
        MissionCachesKnow(s, m, w, before);
        EventStepIsLog(mid.caches, mid.store.events, before, c.eventCommand);
      } else {
        OtherStepIsLog(mid.store.events, before, c);
      }
    }
  }

  // ---- the exported data ----

  /** A run whose last mission started with m and w and has seen cmds since. */
  function MissionCommands(before: seq<Command>, m: Mission, w: World, cmds: seq<Command>): seq<Command> {
    before + [StartMission(m, w)] + cmds
  }

  lemma {:induction false} RunConcat(s: Snapshot, xs: seq<Command>, ys: seq<Command>)
    ensures Run(s, xs + ys) == Run(Run(s, xs), ys)
  {
    if ys == [] {
      assert xs + ys == xs;
    } else {
      var n := |ys| - 1;
      assert (xs + ys)[..|xs| + n] == xs + ys[..n];
      RunConcat(s, xs, ys[..n]);
    }
  }

  lemma {:induction false} StaysInMission(xs: seq<Command>, ys: seq<Command>)
    requires InMission(xs) && Recording(ys)
    ensures InMission(xs + ys)
  {
    if ys == [] {
      assert xs + ys == xs;
    } else {
      var n := |ys| - 1;
      assert (xs + ys)[..|xs| + n] == xs + ys[..n];
      assert ys[n] in ys;
      StaysInMission(xs, ys[..n]);
    }
  }

  lemma IsMissionRun(s: Snapshot, before: seq<Command>, m: Mission, w: World, cmds: seq<Command>)
    requires Recording(cmds)
    ensures InMission(MissionCommands(before, m, w, cmds))
    ensures Run(s, MissionCommands(before, m, w, cmds)) == MissionRun(Run(s, before), m, w, cmds)
  {
    var start := before + [StartMission(m, w)];
    assert start[..|before|] == before;
    RunConcat(s, start, cmds);
    StaysInMission(start, cmds);
  }

  /** The data holds what the commands since the mission start say, and nothing else. */
  ghost predicate IsLogged(d: MissionData, m: Mission, w: World, cmds: seq<Command>) {
    && d.mission == m && d.world == w
    && (forall id :: Get(d.soldiers, id) == SoldierLog(cmds, id))
    && (forall id :: Get(d.vehicles, id) == VehicleLog(cmds, id))
    && (forall id :: Get(d.placed, id) == PlacedLog(cmds, id))
    && (forall name :: Get(d.markers, name) == MarkerLog(cmds, name))
    && d.generalEvents == FlatMap(GeneralIn, cmds) && d.sectorEvents == FlatMap(SectorIn, cmds)
    && d.endMissionEvents == FlatMap(EndIn, cmds) && d.hitEvents == [] && d.killEvents == KillLog(cmds)
    && d.timeStates == FlatMap(TimeIn, cmds) && d.projectiles == ProjectileLog(cmds)
  }

  /** After any number of missions, the exported data of the current one is the log of its commands. */
  lemma ExportIsLogged(s: Snapshot, before: seq<Command>, m: Mission, w: World, cmds: seq<Command>)
    requires StoreOk(s.store) && Recording(cmds)
    ensures InMission(MissionCommands(before, m, w, cmds))
    ensures IsLogged(RecordedData(s, MissionCommands(before, m, w, cmds)), m, w, cmds)
  {
    var all := MissionCommands(before, m, w, cmds);
    IsMissionRun(s, before, m, w, cmds);
    ReachableDataOk(s, all);
    var d, st := RecordedData(s, all), Run(s, all).store;
    EventsAreMissionLogs(Run(s, before), m, w, cmds);
    forall id ensures Get(d.soldiers, id) == SoldierLog(cmds, id)
              ensures Get(d.vehicles, id) == VehicleLog(cmds, id)
              ensures Get(d.placed, id) == PlacedLog(cmds, id)
    {
      RecordsAreLogs(Run(s, before), m, w, cmds, id, "");
    }
    forall name ensures Get(d.markers, name) == MarkerLog(cmds, name) {
      RecordsAreLogs(Run(s, before), m, w, cmds, 0, name);
    }
  }

  // ---- kills ----

  /** The recorded kill names the entity that was sent, as a soldier or as a vehicle, if it is recorded. */
  predicate Names(soldierId: Option<nat>, vehicleId: Option<nat>, id: uint16, d: MissionData) {
    && soldierId == (if id in d.soldiers then Some(id as nat) else None)
    && vehicleId == (if id !in d.soldiers && id in d.vehicles then Some(id as nat) else None)
  }

  /** The commands of a mission, a kill being the last one. */
  function WithKill(cmds: seq<Command>, k: CombatEvent, victim: uint16, killer: uint16): seq<Command> {
    cmds + [OnEvent(Kill(k, victim, killer))]
  }

  lemma KillIsRecorded(s: Snapshot, before: seq<Command>, m: Mission, w: World, cmds: seq<Command>, k: CombatEvent,
                       victim: uint16, killer: uint16) returns (e: CombatEvent)
    requires StoreOk(s.store) && Recording(cmds)
    ensures Recording(WithKill(cmds, k, victim, killer))
    ensures InMission(MissionCommands(before, m, w, WithKill(cmds, k, victim, killer)))
    ensures var d := RecordedData(s, MissionCommands(before, m, w, WithKill(cmds, k, victim, killer)));
      && d.killEvents != [] && d.killEvents[|d.killEvents| - 1] == e
      && Names(e.victimSoldierId, e.victimVehicleId, victim, d)
      && Names(e.sourceSoldierId, e.sourceVehicleId, killer, d)
      && e.captureFrame == k.captureFrame && e.eventText == k.eventText && e.distance == k.distance
  {
    var more := WithKill(cmds, k, victim, killer);
    assert Recording(more);
    ExportIsLogged(s, before, m, w, more);
    EventLogsMore(cmds, OnEvent(Kill(k, victim, killer)));
    e := KillAfter(cmds, k, victim, killer);
    assert more[..|cmds|] == cmds;
    var d := RecordedData(s, MissionCommands(before, m, w, more));
    forall id ensures id in d.soldiers <==> SoldierLog(cmds, id).Some?
              ensures id in d.vehicles <==> VehicleLog(cmds, id).Some?
    {
      assert Get(d.soldiers, id) == SoldierLog(more, id) && Get(d.vehicles, id) == VehicleLog(more, id);
    }
  }

  /** An integer in the document. */
  function Int(n: int): Json.Json { Json.JNum(n as real) }

  /** The exported row of a kill: its victim and its killer, if they are recorded entities, in their places. */
  lemma KillIsExported(lib: Lib, d: MissionData, e: CombatEvent, victim: uint16, killer: uint16)
    requires e in d.killEvents
    requires Names(e.victimSoldierId, e.victimVehicleId, victim, d)
    requires Names(e.sourceSoldierId, e.sourceVehicleId, killer, d)
    ensures V1(lib, d.vehicles).kill(e) in Events(V1(lib, d.vehicles), d)
    ensures var row := EventJson(V1(lib, d.vehicles).kill(e));
      && Entry(row, 0) == Int(e.captureFrame - 1) && Entry(row, 1) == Json.JStr("killed")
      && Entry(row, 2) == Int(if victim in d.soldiers || victim in d.vehicles then victim as int else 0)
      && Entry(Entry(row, 3), 0) == Int(if killer in d.soldiers || killer in d.vehicles then killer as int else 0)
      && Entry(Entry(row, 3), 1) == Json.JStr(e.eventText) && Entry(row, 4) == Json.JNum(e.distance)
  {
    var v, u := KillReads(lib, d.vehicles, e);
    KillInEvents(V1(lib, d.vehicles), d, e);
  }

  lemma KillInEvents(fmt: Format, d: MissionData, e: CombatEvent)
    requires e in d.killEvents
    ensures fmt.kill(e) in Events(fmt, d)
  {
    var unsorted := UnsortedEvents(fmt, d);
    var i :| 0 <= i < |d.killEvents| && d.killEvents[i] == e;
    assert MapSeq(fmt.kill, d.killEvents)[i] == fmt.kill(e);
    assert fmt.kill(e) in ListedEvents(fmt, d);
    assert fmt.kill(e) in unsorted;
    StableSortCorrect(EventFrame, unsorted);
    assert fmt.kill(e) in multiset(Events(fmt, d));
  }

  // ---- metadata ----

  /** f is the frame of a soldier or vehicle state or of an event of a placed object. */
  ghost predicate RecordedAt(st: Store, f: Frame) {
    || (exists k, i :: k in st.soldiers && 0 <= i < |st.soldiers[k].states|
                       && st.soldiers[k].states[i].captureFrame == f)
    || (exists k, i :: k in st.vehicles && 0 <= i < |st.vehicles[k].states|
                       && st.vehicles[k].states[i].captureFrame == f)
    || (exists k, i :: k in st.placed && 0 <= i < |st.placed[k].events|
                       && st.placed[k].events[i].captureFrame == f)
  }

  lemma RecordedAtMeans(st: Store, f: Frame)
    ensures f in RecordedFrames(st) <==> RecordedAt(st, f)
  {
    forall k, i | k in st.soldiers && 0 <= i < |st.soldiers[k].states| && st.soldiers[k].states[i].captureFrame == f
      ensures f in RecordedFrames(st)
    {
      assert SoldierFrames(st.soldiers)[k][i] == f;
    }
    forall k, i | k in st.vehicles && 0 <= i < |st.vehicles[k].states| && st.vehicles[k].states[i].captureFrame == f
      ensures f in RecordedFrames(st)
    {
      assert VehicleFrames(st.vehicles)[k][i] == f;
    }
    forall k, i | k in st.placed && 0 <= i < |st.placed[k].events| && st.placed[k].events[i].captureFrame == f
      ensures f in RecordedFrames(st)
    {
      assert PlacedFrames(st.placed)[k][i] == f;
    }
    if f in FramesIn(SoldierFrames(st.soldiers)) {
      var k, i :| k in st.soldiers && 0 <= i < |SoldierFrames(st.soldiers)[k]| && SoldierFrames(st.soldiers)[k][i] == f;
      assert st.soldiers[k].states[i].captureFrame == f;
    }
    if f in FramesIn(VehicleFrames(st.vehicles)) {
      var k, i :| k in st.vehicles && 0 <= i < |VehicleFrames(st.vehicles)[k]| && VehicleFrames(st.vehicles)[k][i] == f;
      assert st.vehicles[k].states[i].captureFrame == f;
    }
    if f in FramesIn(PlacedFrames(st.placed)) {
      var k, i :| k in st.placed && 0 <= i < |PlacedFrames(st.placed)[k]| && PlacedFrames(st.placed)[k][i] == f;
      assert st.placed[k].events[i].captureFrame == f;
    }
  }

  /** The end frame of the metadata: nothing is later, and something is there unless all is at frame 0. */
  lemma EndFrameExact(st: Store)
    ensures forall f: Frame :: RecordedAt(st, f) ==> f <= EndFrame(st)
    ensures EndFrame(st) == 0 || RecordedAt(st, EndFrame(st))
  {
    forall f: Frame | RecordedAt(st, f) ensures f <= EndFrame(st) {
      RecordedAtMeans(st, f);
    }
    RecordedAtMeans(st, EndFrame(st));
  }

  /** The metadata of a mission: the names it was started with, its last frame, and its focus ranges. */
  lemma MetadataReads(s: Snapshot, m: Mission, w: World, cmds: seq<Command>)
    requires Recording(cmds)
    ensures var st := MissionRun(s, m, w, cmds).store; var r := Metadata(st);
      && r.worldName == w.worldName && r.missionName == m.missionName && r.tag == m.tag
      && r.endFrame == EndFrame(st) && r.missionDuration == Times(r.endFrame, m.captureDelay)
      && r.focusRanges == (if st.focus.open.Some? && st.focus.open.value < r.endFrame
                           then st.focus.ranges + [FocusRange(st.focus.open.value, r.endFrame)] else st.focus.ranges)
  {
    EventsAreMissionLogs(s, m, w, cmds);
    var ranges := MissionRun(s, m, w, cmds).store.focus.ranges;
    assert ranges + [] == ranges;
  }
}
