/**
 When Stream writes what encoding Build's result would give. The comment on Stream promises
 it for every mission; it holds exactly when AgreeOn does.
 */
module Equivalence {
  import opened Wrappers
  import opened Core
  import opened Frames
  import opened Json
  import opened GapFill
  import opened ExportTypes
  import opened Sorting
  import opened ExportSpec
  import opened V1Rows

  // ---- Build does not depend on the order its maps are walked in ----

  ghost function BuildSlot(fmt: Format, d: MissionData, id: uint16): Entity {
    if id in d.vehicles then VehicleEntity(fmt, d.vehicles[id], MaxFrame(d))
    else if id in d.soldiers then SoldierEntity(fmt, d.soldiers[id], MaxFrame(d), [])
    else PLACEHOLDER
  }

  ghost function BuildEntities(fmt: Format, d: MissionData): seq<Entity> {
    seq(if HasEntities(d) then MaxId(d) + 1 else 0,
        i requires 0 <= i < 0x1_0000 =>
          AddLines(BuildSlot(fmt, d, i as uint16), Lines(fmt, d.projectiles, i as uint16)))
  }

  ghost function BuildResult(fmt: Format, d: MissionData): BuildOutcome {
    if HasEntities(d) && MaxId(d) == 0xFFFF then BuildPanic
    else Built(ExportWith(fmt, d, BuildEntities(fmt, d)))
  }

  lemma SlotUnique(fmt: Format, d: MissionData, id: uint16, e: Entity)
    requires KeysAgree(d)
    ensures VehicleSlot(fmt, d, d.vehicles.Keys, id, e) <==> e == BuildSlot(fmt, d, id)
  {
  }

  /** Records filed under their own IDs leave Build one possible result. */
  lemma BuildDeterministic(fmt: Format, d: MissionData, r: BuildOutcome)
    requires KeysAgree(d)
    ensures BuildAllows(fmt, d, r) <==> r == BuildResult(fmt, d)
  {
    forall id: uint16, e ensures FinalSlot(fmt, d, id, e)
      <==> e == AddLines(BuildSlot(fmt, d, id), Lines(fmt, d.projectiles, id))
    {
      SlotUnique(fmt, d, id, BuildSlot(fmt, d, id));
      forall base ensures VehicleSlot(fmt, d, d.vehicles.Keys, id, base) <==> base == BuildSlot(fmt, d, id) {
        SlotUnique(fmt, d, id, base);
      }
    }
    if r.Built? && EntitiesAllowed(fmt, d, r.result.entities) {
      assert r.result.entities == BuildEntities(fmt, d);
    }
    assert EntitiesAllowed(fmt, d, BuildEntities(fmt, d));
  }

  // ---- records filed under foreign keys ----

  ghost predicate VehicleHas(d: MissionData, id: uint16) {
    exists k :: k in d.vehicles && d.vehicles[k].vehicle.id == id
  }

  /** Vehicles of one ID look the same in the export. */
  ghost predicate VehiclesAlike(fmt: Format, d: MissionData) {
    forall k1, k2 :: k1 in d.vehicles && k2 in d.vehicles && d.vehicles[k1].vehicle.id == d.vehicles[k2].vehicle.id ==>
      VehicleEntity(fmt, d.vehicles[k1], MaxFrame(d)) == VehicleEntity(fmt, d.vehicles[k2], MaxFrame(d))
  }

  /** Soldiers of one ID look the same, unless a vehicle of that ID covers them. */
  ghost predicate SoldiersAlike(fmt: Format, d: MissionData) {
    forall k1, k2 ::
      (&& k1 in d.soldiers && k2 in d.soldiers
       && d.soldiers[k1].soldier.id == d.soldiers[k2].soldier.id
       && !VehicleHas(d, d.soldiers[k1].soldier.id)) ==>
      SoldierEntity(fmt, d.soldiers[k1], MaxFrame(d), []) == SoldierEntity(fmt, d.soldiers[k2], MaxFrame(d), [])
  }

  /** Nothing depends on which of several records is written last. */
  ghost predicate OrderFree(fmt: Format, d: MissionData) {
    (HasEntities(d) && MaxId(d) == 0xFFFF) || (VehiclesAlike(fmt, d) && SoldiersAlike(fmt, d))
  }

  ghost predicate OneOutcome(fmt: Format, d: MissionData) {
    forall r1, r2 :: BuildAllows(fmt, d, r1) && BuildAllows(fmt, d, r2) ==> r1 == r2
  }

  lemma BaseUnique(fmt: Format, d: MissionData, id: uint16, e1: Entity, e2: Entity)
    requires VehiclesAlike(fmt, d) && SoldiersAlike(fmt, d)
    requires VehicleSlot(fmt, d, d.vehicles.Keys, id, e1) && VehicleSlot(fmt, d, d.vehicles.Keys, id, e2)
    ensures e1 == e2
  {
    if VehicleHas(d, id) {
      var k1 :| k1 in d.vehicles && d.vehicles[k1].vehicle.id == id
                && e1 == VehicleEntity(fmt, d.vehicles[k1], MaxFrame(d));
      var k2 :| k2 in d.vehicles && d.vehicles[k2].vehicle.id == id
                && e2 == VehicleEntity(fmt, d.vehicles[k2], MaxFrame(d));
    } else {
      assert SoldierSlot(fmt, d, d.soldiers.Keys, id, e1) && SoldierSlot(fmt, d, d.soldiers.Keys, id, e2);
    }
  }

  lemma SameFinal(fmt: Format, d: MissionData, id: uint16, e1: Entity, e2: Entity)
    requires VehiclesAlike(fmt, d) && SoldiersAlike(fmt, d)
    requires FinalSlot(fmt, d, id, e1) && FinalSlot(fmt, d, id, e2)
    ensures e1 == e2
  {
    var lines := Lines(fmt, d.projectiles, id);
    var b1 :| VehicleSlot(fmt, d, d.vehicles.Keys, id, b1) && e1 == AddLines(b1, lines);
    var b2 :| VehicleSlot(fmt, d, d.vehicles.Keys, id, b2) && e2 == AddLines(b2, lines);
    BaseUnique(fmt, d, id, b1, b2);
  }

  lemma SameEntities(fmt: Format, d: MissionData, es1: seq<Entity>, es2: seq<Entity>)
    requires VehiclesAlike(fmt, d) && SoldiersAlike(fmt, d)
    requires EntitiesAllowed(fmt, d, es1) && EntitiesAllowed(fmt, d, es2)
    ensures es1 == es2
  {
    forall i | 0 <= i < |es1| ensures es1[i] == es2[i] {
      SameFinal(fmt, d, i as uint16, es1[i], es2[i]);
    }
  }

  lemma OrderFreeSuffices(fmt: Format, d: MissionData, r1: BuildOutcome, r2: BuildOutcome)
    requires OrderFree(fmt, d) && BuildAllows(fmt, d, r1) && BuildAllows(fmt, d, r2)
    ensures r1 == r2
  {
    if !(HasEntities(d) && MaxId(d) == 0xFFFF) {
      SameEntities(fmt, d, r1.result.entities, r2.result.entities);
    }
  }

  /** Some entity the slot may hold. */
  ghost function SomeBase(fmt: Format, d: MissionData, id: uint16): (e: Entity)
    ensures VehicleSlot(fmt, d, d.vehicles.Keys, id, e)
  {
    if VehicleHas(d, id) then
      var k :| k in d.vehicles && d.vehicles[k].vehicle.id == id;
      VehicleEntity(fmt, d.vehicles[k], MaxFrame(d))
    else if exists k :: k in d.soldiers && d.soldiers[k].soldier.id == id then
      var k :| k in d.soldiers && d.soldiers[k].soldier.id == id;
      SoldierEntity(fmt, d.soldiers[k], MaxFrame(d), [])
    else PLACEHOLDER
  }

  /** Build's result when base was written last into slot id. */
  ghost function OutcomeWith(fmt: Format, d: MissionData, id: uint16, base: Entity): BuildOutcome {
    Built(ExportWith(fmt, d, seq(if HasEntities(d) then MaxId(d) + 1 else 0, i requires 0 <= i < 0x1_0000 =>
      AddLines(if i as uint16 == id then base else SomeBase(fmt, d, i as uint16),
               Lines(fmt, d.projectiles, i as uint16)))))
  }

  lemma OutcomeAllowed(fmt: Format, d: MissionData, id: uint16, base: Entity)
    requires VehicleSlot(fmt, d, d.vehicles.Keys, id, base) && !(HasEntities(d) && MaxId(d) == 0xFFFF)
    ensures BuildAllows(fmt, d, OutcomeWith(fmt, d, id, base))
  {
    var es := OutcomeWith(fmt, d, id, base).result.entities;
    forall i | 0 <= i < |es| ensures FinalSlot(fmt, d, i as uint16, es[i]) {
      var b := if i as uint16 == id then base else SomeBase(fmt, d, i as uint16);
      assert VehicleSlot(fmt, d, d.vehicles.Keys, i as uint16, b);
      assert es[i] == AddLines(b, Lines(fmt, d.projectiles, i as uint16));
    }
  }

  lemma SameWithLines(b1: Entity, b2: Entity, lines: seq<Json>)
    requires b1.framesFired.Some? && b2.framesFired.Some? && AddLines(b1, lines) == AddLines(b2, lines)
    ensures b1 == b2
  {
    var f1, f2 := b1.framesFired.value, b2.framesFired.value;
    if lines != [] {
      assert f1 + lines == f2 + lines;
      assert |f1| == |f2| && f1 == (f1 + lines)[..|f1|] && f2 == (f2 + lines)[..|f2|];
    }
  }

  /** Two different records that can both end up in one slot give two results. */
  lemma TwoOutcomes(fmt: Format, d: MissionData, id: uint16, b1: Entity, b2: Entity)
    requires HasEntities(d) && id as int <= MaxId(d) < 0xFFFF
    requires VehicleSlot(fmt, d, d.vehicles.Keys, id, b1) && VehicleSlot(fmt, d, d.vehicles.Keys, id, b2)
    requires b1.framesFired.Some? && b2.framesFired.Some? && b1 != b2
    ensures var r1, r2 := OutcomeWith(fmt, d, id, b1), OutcomeWith(fmt, d, id, b2);
      BuildAllows(fmt, d, r1) && BuildAllows(fmt, d, r2) && r1 != r2
  {
    OutcomeAllowed(fmt, d, id, b1);
    OutcomeAllowed(fmt, d, id, b2);
    var r1, r2 := OutcomeWith(fmt, d, id, b1), OutcomeWith(fmt, d, id, b2);
    var lines := Lines(fmt, d.projectiles, id);
    assert r1.result.entities[id as int] == AddLines(b1, lines);
    assert r2.result.entities[id as int] == AddLines(b2, lines);
    if r1 == r2 {
      SameWithLines(b1, b2, lines);
    }
  }

  lemma MayKeepSoldier(fmt: Format, d: MissionData, k: uint16)
    requires k in d.soldiers && !VehicleHas(d, d.soldiers[k].soldier.id)
    ensures VehicleSlot(fmt, d, d.vehicles.Keys, d.soldiers[k].soldier.id,
                        SoldierEntity(fmt, d.soldiers[k], MaxFrame(d), []))
  {
    assert k in d.soldiers.Keys;
  }

  lemma MayKeepVehicle(fmt: Format, d: MissionData, k: uint16)
    requires k in d.vehicles
    ensures VehicleSlot(fmt, d, d.vehicles.Keys, d.vehicles[k].vehicle.id,
                        VehicleEntity(fmt, d.vehicles[k], MaxFrame(d)))
  {
    assert k in d.vehicles.Keys;
  }

  /**
   Two soldiers that look different, filed under different keys with one ID that no vehicle
   has: either may be written last, and Build has two results.
   */
  lemma OrderMattersWithoutKeys(fmt: Format, d: MissionData, k1: uint16, k2: uint16)
    requires k1 in d.soldiers && k2 in d.soldiers && d.soldiers[k1].soldier.id == d.soldiers[k2].soldier.id
    requires !VehicleHas(d, d.soldiers[k1].soldier.id) && MaxId(d) < 0xFFFF
    requires SoldierEntity(fmt, d.soldiers[k1], MaxFrame(d), []) != SoldierEntity(fmt, d.soldiers[k2], MaxFrame(d), [])
    ensures exists r1, r2 :: BuildAllows(fmt, d, r1) && BuildAllows(fmt, d, r2) && r1 != r2
  {
    MetadataBounds(d);
    assert d.soldiers.Keys != {};
    MayKeepSoldier(fmt, d, k1);
    MayKeepSoldier(fmt, d, k2);
    TwoOutcomes(fmt, d, d.soldiers[k1].soldier.id, SoldierEntity(fmt, d.soldiers[k1], MaxFrame(d), []),
                SoldierEntity(fmt, d.soldiers[k2], MaxFrame(d), []));
  }

  /** The same for two vehicles. */
  lemma OrderMattersForVehicles(fmt: Format, d: MissionData, k1: uint16, k2: uint16)
    requires k1 in d.vehicles && k2 in d.vehicles && d.vehicles[k1].vehicle.id == d.vehicles[k2].vehicle.id
    requires MaxId(d) < 0xFFFF
    requires VehicleEntity(fmt, d.vehicles[k1], MaxFrame(d)) != VehicleEntity(fmt, d.vehicles[k2], MaxFrame(d))
    ensures exists r1, r2 :: BuildAllows(fmt, d, r1) && BuildAllows(fmt, d, r2) && r1 != r2
  {
    MetadataBounds(d);
    assert d.vehicles.Keys != {};
    MayKeepVehicle(fmt, d, k1);
    MayKeepVehicle(fmt, d, k2);
    TwoOutcomes(fmt, d, d.vehicles[k1].vehicle.id, VehicleEntity(fmt, d.vehicles[k1], MaxFrame(d)),
                VehicleEntity(fmt, d.vehicles[k2], MaxFrame(d)));
  }

  /**
   For every mission data, whatever its records are filed under: Build has one possible outcome,
   over all orders of walking its maps, if and only if OrderFree holds.
   */
  lemma OneOutcomeExact(fmt: Format, d: MissionData)
    ensures OneOutcome(fmt, d) <==> OrderFree(fmt, d)
  {
    if OrderFree(fmt, d) {
      forall r1, r2 | BuildAllows(fmt, d, r1) && BuildAllows(fmt, d, r2) ensures r1 == r2 {
        OrderFreeSuffices(fmt, d, r1, r2);
      }
    } else if !VehiclesAlike(fmt, d) {
      NotAlikeVehicles(fmt, d);
    } else {
      NotAlikeSoldiers(fmt, d);
    }
  }

  lemma SomeRecord(d: MissionData)
    ensures (exists k :: k in d.soldiers) || (exists k :: k in d.vehicles) ==> HasEntities(d)
  {
    assert d.soldiers == map[] || d.soldiers.Keys != {};
    assert |d.soldiers| == |d.soldiers.Keys| && |d.vehicles| == |d.vehicles.Keys|;
  }

  lemma NotAlikeVehicles(fmt: Format, d: MissionData)
    requires !VehiclesAlike(fmt, d) && !(HasEntities(d) && MaxId(d) == 0xFFFF)
    ensures !OneOutcome(fmt, d)
  {
    var k1, k2 :| k1 in d.vehicles && k2 in d.vehicles && d.vehicles[k1].vehicle.id == d.vehicles[k2].vehicle.id
      && VehicleEntity(fmt, d.vehicles[k1], MaxFrame(d)) != VehicleEntity(fmt, d.vehicles[k2], MaxFrame(d));
    SomeRecord(d);
    OrderMattersForVehicles(fmt, d, k1, k2);
  }

  lemma NotAlikeSoldiers(fmt: Format, d: MissionData)
    requires !SoldiersAlike(fmt, d) && !(HasEntities(d) && MaxId(d) == 0xFFFF)
    ensures !OneOutcome(fmt, d)
  {
    var k1, k2 :| k1 in d.soldiers && k2 in d.soldiers && d.soldiers[k1].soldier.id == d.soldiers[k2].soldier.id
      && !VehicleHas(d, d.soldiers[k1].soldier.id)
      && SoldierEntity(fmt, d.soldiers[k1], MaxFrame(d), []) != SoldierEntity(fmt, d.soldiers[k2], MaxFrame(d), []);
    SomeRecord(d);
    OrderMattersWithoutKeys(fmt, d, k1, k2);
  }

  // ---- the encoded export determines what tells the two apart ----

  lemma EntityJsonDetermines(a: Entity, b: Entity)
    requires EntityJson(a) == EntityJson(b)
    ensures a.kind == b.kind && RowsJson(a.framesFired) == RowsJson(b.framesFired)
  {
    var fa, fb := EntityJson(a).fields, EntityJson(b).fields;
    assert fa[|fa| - 1].value == RowsJson(a.framesFired);
    assert fb[|fb| - 1].value == RowsJson(b.framesFired);
    assert "group"[0] != "side"[0];
    assert fa[2].key == if a.group == "" then "side" else "group";
    assert fb[2].key == if b.group == "" then "side" else "group";
    var n := |EntityHead(a)|;
    assert n == |EntityHead(b)|;
    assert fa[n - 1].value == JStr(a.kind) && fb[n - 1].value == JStr(b.kind);
  }

  lemma EncodingDetermines(fmt: Format, a: Export, b: Export)
    requires forall e :: fmt.entity(e) == EntityJson(e)
    requires Emit(ExportJson(fmt, a)) == Emit(ExportJson(fmt, b))
    ensures |a.entities| == |b.entities|
    ensures forall i :: 0 <= i < |a.entities| ==>
      && a.entities[i].kind == b.entities[i].kind
      && RowsJson(a.entities[i].framesFired) == RowsJson(b.entities[i].framesFired)
  {
    EmitInjective(ExportJson(fmt, a), ExportJson(fmt, b));
    var ea, eb := MapSeq(fmt.entity, a.entities), MapSeq(fmt.entity, b.entities);
    assert ExportJson(fmt, a).fields[10].value == JArr(ea);
    assert ExportJson(fmt, b).fields[10].value == JArr(eb);
    forall i | 0 <= i < |a.entities|
      ensures a.entities[i].kind == b.entities[i].kind
      ensures RowsJson(a.entities[i].framesFired) == RowsJson(b.entities[i].framesFired)
    {
      assert ea[i] == eb[i];
      EntityJsonDetermines(a.entities[i], b.entities[i]);
    }
  }

  // ---- the condition ----

  /** Every drawn line inside the entity list was fired by a soldier. */
  predicate LinesBySoldiers(d: MissionData, maxId: int) {
    forall p :: p in d.projectiles && IsLine(p) && p.firerObjectId as int <= maxId ==> p.firerObjectId in d.soldiers
  }

  /**
   No entity at all; or the largest ID leaves room for one more, no ID is both a soldier and a
   vehicle, and every bullet line inside the list belongs to a soldier.
   */
  ghost predicate AgreeOn(d: MissionData) {
    HasEntities(d) ==>
      && MaxId(d) < 0xFFFF
      && d.soldiers.Keys !! d.vehicles.Keys
      && LinesBySoldiers(d, MaxId(d))
  }

  lemma {:induction false} NoLines(fmt: Format, ps: seq<ProjectileEvent>, id: uint16)
    ensures Lines(fmt, ps, id) == [] <==> forall p :: p in ps && IsLine(p) ==> p.firerObjectId != id
  {
    if ps != [] {
      NoLines(fmt, ps[..|ps| - 1], id);
      assert ps == ps[..|ps| - 1] + [ps[|ps| - 1]];
    }
  }

  lemma SlotsAgree(fmt: Format, d: MissionData, id: uint16)
    requires d.soldiers.Keys !! d.vehicles.Keys
    requires id in d.soldiers || Lines(fmt, d.projectiles, id) == []
    ensures AddLines(BuildSlot(fmt, d, id), Lines(fmt, d.projectiles, id)) == StreamSlot(fmt, d, id)
  {
    if id in d.soldiers {
      var lines := Lines(fmt, d.projectiles, id);
      var fired := FiredRows(fmt, d.soldiers[id].firedEvents);
      assert fired + [] == fired;
      assert lines == [] ==> fired + lines == fired;
    }
  }

  lemma SlotsDiffer(fmt: Format, d: MissionData, id: uint16)
    requires (id in d.soldiers && id in d.vehicles)
          || (id !in d.soldiers && Lines(fmt, d.projectiles, id) != [])
    ensures var built := AddLines(BuildSlot(fmt, d, id), Lines(fmt, d.projectiles, id));
      var streamed := StreamSlot(fmt, d, id);
      built.kind != streamed.kind || RowsJson(built.framesFired) != RowsJson(streamed.framesFired)
  {
    assert "unit"[0] != "vehicle"[0];
  }

  /** Build returned, and encoding its result gives the tokens Stream writes. */
  ghost predicate SameDocument(fmt: Format, d: MissionData, r: BuildOutcome) {
    r.Built? && Emit(ExportJson(fmt, r.result)) == Emit(ExportJson(fmt, StreamExport(fmt, d)))
  }

  lemma AgreementSuffices(fmt: Format, d: MissionData)
    requires KeysAgree(d) && AgreeOn(d)
    ensures SameDocument(fmt, d, BuildResult(fmt, d))
  {
    forall i | 0 <= i < |BuildEntities(fmt, d)|
      ensures BuildEntities(fmt, d)[i] == StreamSlot(fmt, d, i as uint16)
    {
      NoLines(fmt, d.projectiles, i as uint16);
      SlotsAgree(fmt, d, i as uint16);
    }
    assert BuildEntities(fmt, d) == StreamExport(fmt, d).entities;
  }

  lemma AgreementNeeded(fmt: Format, d: MissionData)
    requires KeysAgree(d) && forall e :: fmt.entity(e) == EntityJson(e)
    requires SameDocument(fmt, d, BuildResult(fmt, d))
    ensures AgreeOn(d)
  {
    if HasEntities(d) {
      assert MaxId(d) < 0xFFFF;
      EncodingDetermines(fmt, BuildResult(fmt, d).result, StreamExport(fmt, d));
      MetadataBounds(d);
      forall id | id in d.soldiers && id in d.vehicles ensures false {
        SlotsDiffer(fmt, d, id);
        SlotValues(fmt, d, id);
      }
      forall p | p in d.projectiles && IsLine(p) && p.firerObjectId as int <= MaxId(d)
        ensures p.firerObjectId in d.soldiers
      {
        var id := p.firerObjectId;
        NoLines(fmt, d.projectiles, id);
        SlotValues(fmt, d, id);
        if id !in d.soldiers {
          SlotsDiffer(fmt, d, id);
        }
      }
    }
  }

  lemma SlotValues(fmt: Format, d: MissionData, id: uint16)
    requires HasEntities(d) && id as int <= MaxId(d)
    ensures BuildEntities(fmt, d)[id as int] == AddLines(BuildSlot(fmt, d, id), Lines(fmt, d.projectiles, id))
    ensures StreamExport(fmt, d).entities[id as int] == StreamSlot(fmt, d, id)
  {
  }

  /**
   For every mission whose records are filed under their own IDs: each outcome Build may have
   is an export that encodes to exactly what Stream writes, if and only if AgreeOn(d).
   */
  lemma StreamEqualsBuild(lib: Lib, d: MissionData)
    requires KeysAgree(d)
    ensures var fmt := V1(lib, d.vehicles);
      (forall r :: BuildAllows(fmt, d, r) ==> SameDocument(fmt, d, r)) <==> AgreeOn(d)
  {
    var fmt := V1(lib, d.vehicles);
    forall r ensures BuildAllows(fmt, d, r) <==> r == BuildResult(fmt, d) {
      BuildDeterministic(fmt, d, r);
    }
    if AgreeOn(d) {
      AgreementSuffices(fmt, d);
    }
    if SameDocument(fmt, d, BuildResult(fmt, d)) {
      AgreementNeeded(fmt, d);
    }
  }

  // ---- what an export contains ----

  /** Slot N belongs to entity N; a slot without an entity is a placeholder but for lines. */
  lemma SlotIsId(fmt: Format, d: MissionData, i: nat)
    requires KeysAgree(d) && i < |BuildEntities(fmt, d)|
    ensures var id, e := i as uint16, BuildEntities(fmt, d)[i];
      && (id in d.soldiers || id in d.vehicles ==> e.id == id && e.kind != "")
      && (id !in d.soldiers && id !in d.vehicles ==> e.(framesFired := None) == PLACEHOLDER)
  {
  }

  /**
   Frames ascend in the event list, rows of one frame keep the order of the recorded lists, and
   no row is lost or repeated.
   */
  lemma EventsChronological(fmt: Format, d: MissionData)
    ensures SortedBy(EventFrame, Events(fmt, d))
    ensures StableRearrangement(EventFrame, UnsortedEvents(fmt, d), Events(fmt, d))
    ensures forall rows ::
      (SortedBy(EventFrame, rows) && StableRearrangement(EventFrame, UnsortedEvents(fmt, d), rows)
       ==> rows == Events(fmt, d))
  {
    var es := Events(fmt, d);
    StableSortCorrect(EventFrame, UnsortedEvents(fmt, d));
    forall rows | SortedBy(EventFrame, rows) && StableRearrangement(EventFrame, UnsortedEvents(fmt, d), rows)
      ensures rows == es
    {
      forall k ensures Having(EventFrame, k, rows) == Having(EventFrame, k, es) {
        assert Having(EventFrame, k, rows) == Having(EventFrame, k, UnsortedEvents(fmt, d));
      }
      StableSortUnique(EventFrame, rows, es);
    }
  }

  lemma {:induction false} ListingLength<T(!new)>(lt: (T, T) -> bool, xs: seq<T>, s: set<T>)
    requires StrictTotal(lt) && Lists(lt, xs, s)
    ensures |xs| == |s|
  {
    EmptyListing(lt, xs, s);
    if xs != [] {
      DropGreatest(lt, xs, s);
      assert xs[|xs| - 1] in s;
      ListingLength(lt, xs[..|xs| - 1], s - {xs[|xs| - 1]});
    }
  }

  lemma {:induction false} ProjectileMarkerCount(fmt: Format, ps: seq<ProjectileEvent>)
    ensures |ProjectileMarkers(fmt, ps)|
         == |Filter((p: ProjectileEvent) => IsProjectileMarker(p.simulationType), ps)|
  {
    if ps != [] {
      ProjectileMarkerCount(fmt, ps[..|ps| - 1]);
    }
  }

  /** One marker per static marker, per placed object and per projectile that is no bullet. */
  lemma MarkerCount(fmt: Format, d: MissionData)
    ensures |Markers(fmt, d)| == |d.markers| + |d.placed|
      + |Filter((p: ProjectileEvent) => IsProjectileMarker(p.simulationType), d.projectiles)|
  {
    LtStringStrictTotal();
    LtIdStrictTotal();
    ListingLength(LtString, Listing(LtString, d.markers.Keys), d.markers.Keys);
    ListingLength(LtId, Listing(LtId, d.placed.Keys), d.placed.Keys);
    ProjectileMarkerCount(fmt, d.projectiles);
  }

  // ---- timelines of entities ----

  /**
   How far entries, one per frame from the first state on, have to reach: to the mission's last
   frame for an entity that was not deleted, to the delete frame otherwise, and up to the last
   state, not included, when the entity was deleted before it.
   */
  predicate LastsUntil(first: Frame, last: Frame, entries: nat, deleteFrame: Frame, maxFrame: Frame) {
    if deleteFrame == 0 then first + entries - 1 == maxFrame
    else if last <= deleteFrame then first + entries - 1 == deleteFrame
    else first + entries == last
  }

  ghost predicate StatesInOrder(states: seq<SoldierState>) {
    forall i, j :: 0 <= i < j < |states| ==> states[i].captureFrame <= states[j].captureFrame
  }

  /** State i is the last one that was captured at or before frame f. */
  ghost predicate NewestState(states: seq<SoldierState>, f: int, i: nat) {
    && i < |states| && states[i].captureFrame <= f
    && forall j :: i < j < |states| ==> states[j].captureFrame > f
  }

  /** Entry k of positions is the row of the newest state k frames after the first one. */
  ghost predicate ShowsNewest(fmt: Format, r: SoldierRecord, positions: seq<Json>, k: nat)
    requires k < |positions| && r.states != []
  {
    exists i: nat :: NewestState(r.states, r.states[0].captureFrame + k, i)
      && positions[k] == fmt.soldierPosition(r.states[i])
  }

  /** One entry per frame, each the row of the newest state, for as long as the soldier is shown. */
  ghost predicate ShowsStates(fmt: Format, r: SoldierRecord, positions: seq<Json>, maxFrame: Frame)
    requires r.states != []
  {
    && LastsUntil(r.states[0].captureFrame, r.states[|r.states| - 1].captureFrame, |positions|,
                  r.soldier.deleteFrame, maxFrame)
    && forall k :: 0 <= k < |positions| ==> ShowsNewest(fmt, r, positions, k)
  }

  /**
   A soldier's positions: with capture frames in order there is one entry per frame, entry k is
   the row of the newest state at frame c0+k, and they reach as far as the soldier is shown.
   */
  lemma SoldierTimeline(fmt: Format, r: SoldierRecord, maxFrame: Frame)
    requires r.states != [] && StatesInOrder(r.states)
    requires forall i :: 0 <= i < |r.states| ==> r.states[i].captureFrame <= maxFrame
    ensures ShowsStates(fmt, r, SoldierPositions(fmt, r, maxFrame, |r.states|), maxFrame)
  {
    var frames := MapSeq(StateFrame, r.states);
    var end := EndOf(r.soldier.deleteFrame, maxFrame);
    FillExact(frames, end);
    var positions := SoldierPositions(fmt, r, maxFrame, |r.states|);
    forall k | 0 <= k < |positions| ensures ShowsNewest(fmt, r, positions, k) {
      var i := Fill(frames, end)[k];
      assert Newest(frames, frames[0] + k, i);
      NewestFrame(r.states, frames[0] + k, i);
      assert positions[k] == fmt.soldierPosition(r.states[i]);
    }
  }

  lemma NewestFrame(states: seq<SoldierState>, f: int, i: nat)
    requires Newest(MapSeq(StateFrame, states), f, i)
    ensures NewestState(states, f, i)
  {
    var frames := MapSeq(StateFrame, states);
    assert |frames| == |states|;
    forall j | i < j < |states| ensures states[j].captureFrame > f {
      assert frames[j] > f;
    }
  }

  /** Only frames in order give a timeline of that length. */
  lemma TimelineNeedsOrder(fmt: Format, r: SoldierRecord, maxFrame: Frame)
    requires r.states != [] && forall i :: 0 <= i < |r.states| ==> r.states[i].captureFrame <= maxFrame
    requires ShowsStates(fmt, r, SoldierPositions(fmt, r, maxFrame, |r.states|), maxFrame)
    ensures StatesInOrder(r.states)
  {
    var frames := MapSeq(StateFrame, r.states);
    LengthExact(frames, EndOf(r.soldier.deleteFrame, maxFrame));
    assert NonDecreasing(frames);
    forall i, j | 0 <= i < j < |r.states| ensures r.states[i].captureFrame <= r.states[j].captureFrame {
      assert frames[i] <= frames[j];
    }
  }

  // ---- vehicles ----

  ghost predicate VehicleStatesInOrder(states: seq<VehicleState>) {
    forall i, j :: 0 <= i < j < |states| ==> states[i].captureFrame <= states[j].captureFrame
  }

  ghost predicate NewestVehicleState(states: seq<VehicleState>, f: int, i: nat) {
    && i < |states| && states[i].captureFrame <= f
    && forall j :: i < j < |states| ==> states[j].captureFrame > f
  }

  predicate InRange(r: (int, int), f: int) { r.0 <= f <= r.1 }

  /** The rows of a vehicle with their ranges: exported frames, which count from 0. */
  ghost predicate VehicleRows(fmt: Format, r: VehicleRecord, maxFrame: Frame, rows: seq<Json>,
                              ranges: seq<(int, int)>)
  {
    && |rows| == |ranges| == |r.states|
    && forall i :: 0 <= i < |rows| ==>
         && rows[i] == fmt.vehiclePosition(r.states[i], ranges[i])
         && ranges[i].0 == r.states[i].captureFrame - 1
         && ranges[i].1 == if i + 1 < |rows| then r.states[i + 1].captureFrame - 2
                           else (if r.vehicle.deleteFrame > 0 then r.vehicle.deleteFrame else maxFrame) - 1
  }

  /** Each row has the range of its state, to the delete frame or the mission's last frame. */
  lemma VehicleTimeline(fmt: Format, r: VehicleRecord, maxFrame: Frame) returns (ranges: seq<(int, int)>)
    ensures VehicleRows(fmt, r, maxFrame, VehiclePositions(fmt, r, maxFrame), ranges)
  {
    var frames := MapSeq(VehicleStateFrame, r.states);
    ranges := Ranges(frames, EndOf(r.vehicle.deleteFrame, maxFrame));
    forall i | 0 <= i < |r.states|
      ensures ranges[i].0 == r.states[i].captureFrame - 1
      ensures ranges[i].1 == if i + 1 < |r.states| then r.states[i + 1].captureFrame - 2
                             else (if r.vehicle.deleteFrame > 0 then r.vehicle.deleteFrame else maxFrame) - 1
    {
      assert frames[i] == r.states[i].captureFrame;
    }
  }

  /**
   With capture frames in order an exported frame lies in the range of the state that is newest
   at it and in no other; only the last range stops, at the end.
   */
  lemma VehicleRangeExact(fmt: Format, r: VehicleRecord, maxFrame: Frame, rows: seq<Json>, ranges: seq<(int, int)>,
                          f: int, i: nat)
    requires VehicleRows(fmt, r, maxFrame, rows, ranges) && VehicleStatesInOrder(r.states) && i < |ranges|
    ensures InRange(ranges[i], f)
       <==> NewestVehicleState(r.states, f + 1, i)
            && (i + 1 == |ranges| ==>
                  f + 1 <= if r.vehicle.deleteFrame > 0 then r.vehicle.deleteFrame else maxFrame)
  {
    var states := r.states;
    assert rows[i] == fmt.vehiclePosition(states[i], ranges[i]);
    if i + 1 < |states| && states[i + 1].captureFrame > f + 1 {
      forall j | i < j < |states| ensures states[j].captureFrame > f + 1 {
        assert j == i + 1 || states[i + 1].captureFrame <= states[j].captureFrame;
      }
    }
  }

  /** Every frame from the first state to the end lies in a range. */
  lemma VehicleFrameCovered(fmt: Format, r: VehicleRecord, maxFrame: Frame, rows: seq<Json>, ranges: seq<(int, int)>,
                            f: int) returns (i: nat)
    requires VehicleRows(fmt, r, maxFrame, rows, ranges) && VehicleStatesInOrder(r.states) && r.states != []
    requires r.states[0].captureFrame <= f + 1
    requires f + 1 <= if r.vehicle.deleteFrame > 0 then r.vehicle.deleteFrame else maxFrame
    ensures i < |ranges| && InRange(ranges[i], f)
  {
    i := NewestExists(r.states, f + 1);
    VehicleRangeExact(fmt, r, maxFrame, rows, ranges, f, i);
  }

  lemma {:induction false} NewestExists(states: seq<VehicleState>, f: int) returns (i: nat)
    requires states != [] && states[0].captureFrame <= f && VehicleStatesInOrder(states)
    ensures NewestVehicleState(states, f, i)
  {
    i := |states| - 1;
    if states[i].captureFrame > f {
      var before := states[..i];
      i := NewestExists(before, f);
      assert forall j :: i < j < |before| ==> states[j] == before[j];
    }
  }
}
