/**
 Stream (internal/storage/memory/export/v1/stream.go): the same export written token by token,
 one entity at a time, with bullet lines collected per firer first.
 */
module Stream {
  import opened Wrappers
  import opened Core
  import opened Json
  import opened GapFill
  import opened ExportTypes
  import opened Sorting
  import opened ExportSpec
  import opened Builder

  /** The buffered writer. Errors of the underlying io.Writer are not modelled. */
  class Writer {
    var out: seq<Token>

    constructor ()
      ensures out == []
    {
      out := [];
    }

    method WriteToken(t: Token)
      modifies this
      ensures out == old(out) + [t]
    {
      out := out + [t];
    }

    method WriteJson(j: Json)
      modifies this
      ensures out == old(out) + Emit(j)
    {
      out := out + Emit(j);
    }

    /** `"key":value`, with a comma before it when it is not the first field. */
    method WriteField(leading: bool, key: string, value: Json)
      modifies this
      ensures out == old(out) + (if leading then [Comma] else []) + EmitField(Field(key, value))
    {
      if leading {
        WriteToken(Comma);
      }
      WriteToken(TStr(key));
      WriteToken(Colon);
      WriteJson(value);
      assert [TStr(key)] + [Colon] + Emit(value) == [TStr(key), Colon] + Emit(value);
    }
  }

  /** A Go map lookup: the nil slice for a missing key. */
  function LinesAt(m: map<uint16, seq<Json>>, id: uint16): seq<Json> {
    if id in m then m[id] else []
  }

  /** What one projectile leaves behind: a line, grouped under its firer, or a marker. */
  method GroupOne(fmt: Format, p: ProjectileEvent, fireLines: map<uint16, seq<Json>>)
    returns (r: map<uint16, seq<Json>>, marker: seq<Json>)
    ensures forall id :: LinesAt(r, id) == LinesAt(fireLines, id) + LineOf(fmt, p, id)
    ensures marker == if IsProjectileMarker(p.simulationType) then [fmt.projectile(p)] else []
  {
    r, marker := fireLines, [];
    if !IsProjectileMarker(p.simulationType) {
      if |p.trajectory| >= 2 {
        var firer := p.firerObjectId;
        r := r[firer := LinesAt(r, firer) + [LineRow(fmt, p)]];
      }
    } else {
      marker := [fmt.projectile(p)];
    }
  }

  /** m holds the lines of ps, grouped by firer. */
  ghost predicate Grouped(fmt: Format, ps: seq<ProjectileEvent>, m: map<uint16, seq<Json>>) {
    forall id :: LinesAt(m, id) == Lines(fmt, ps, id)
  }

  ghost predicate GroupedLines(fmt: Format, d: MissionData, m: map<uint16, seq<Json>>) {
    Grouped(fmt, d.projectiles, m)
  }

  lemma GroupedSnoc(fmt: Format, ps: seq<ProjectileEvent>, n: nat, before: map<uint16, seq<Json>>,
                    after: map<uint16, seq<Json>>)
    requires n < |ps| && Grouped(fmt, ps[..n], before)
    requires forall id :: LinesAt(after, id) == LinesAt(before, id) + LineOf(fmt, ps[n], id)
    ensures Grouped(fmt, ps[..n + 1], after)
  {
    forall id ensures LinesAt(after, id) == Lines(fmt, ps[..n + 1], id) {
      assert ps[..n + 1][..n] == ps[..n];
    }
  }

  lemma MarkersSnoc(fmt: Format, ps: seq<ProjectileEvent>, n: nat)
    requires n < |ps|
    ensures ProjectileMarkers(fmt, ps[..n + 1])
         == ProjectileMarkers(fmt, ps[..n])
            + if IsProjectileMarker(ps[n].simulationType) then [fmt.projectile(ps[n])] else []
  {
    assert ps[..n + 1][..n] == ps[..n];
  }

  /** The lists after the first n projectiles, appended to what was there before. */
  ghost predicate Collected(fmt: Format, ps: seq<ProjectileEvent>, n: nat, events0: seq<EventRow>,
                            markers0: seq<Json>, events: seq<EventRow>, markers: seq<Json>)
    requires n <= |ps|
  {
    && events == events0 + FlatMap(fmt.projectileHits, ps[..n])
    && markers == markers0 + ProjectileMarkers(fmt, ps[..n])
  }

  lemma CollectedSnoc(fmt: Format, ps: seq<ProjectileEvent>, n: nat, events0: seq<EventRow>,
                      markers0: seq<Json>, events: seq<EventRow>, markers: seq<Json>, marker: seq<Json>)
    requires n < |ps| && Collected(fmt, ps, n, events0, markers0, events, markers)
    requires marker == if IsProjectileMarker(ps[n].simulationType) then [fmt.projectile(ps[n])] else []
    ensures Collected(fmt, ps, n + 1, events0, markers0, events + fmt.projectileHits(ps[n]), markers + marker)
  {
    FlatMapSnoc(fmt.projectileHits, ps, n);
    MarkersSnoc(fmt, ps, n);
    assert markers0 + ProjectileMarkers(fmt, ps[..n]) + marker == markers0 + (ProjectileMarkers(fmt, ps[..n]) + marker);
  }

  /** The projectile loop of buildAggregates: lines are grouped by firer. */
  method CollectProjectiles(fmt: Format, d: MissionData, events0: seq<EventRow>, markers0: seq<Json>)
    returns (events: seq<EventRow>, markers: seq<Json>, fireLines: map<uint16, seq<Json>>)
    ensures events == events0 + FlatMap(fmt.projectileHits, d.projectiles)
    ensures markers == markers0 + ProjectileMarkers(fmt, d.projectiles)
    ensures GroupedLines(fmt, d, fireLines)
  {
    var ps := d.projectiles;
    events, markers, fireLines := events0, markers0, map[];
    for n := 0 to |ps|
      invariant Collected(fmt, ps, n, events0, markers0, events, markers)
      invariant Grouped(fmt, ps[..n], fireLines)
    {
      ghost var before := fireLines;
      var marker: seq<Json>;
      fireLines, marker := GroupOne(fmt, ps[n], fireLines);
      GroupedSnoc(fmt, ps, n, before, fireLines);
      CollectedSnoc(fmt, ps, n, events0, markers0, events, markers, marker);
      markers := markers + marker;
      events := events + fmt.projectileHits(ps[n]);
    }
    assert ps[..|ps|] == ps;
  }

  /** Names an index, so that the facts below are only used where they are wanted. */
  ghost predicate At(i: int) { true }

  /** slots holds what has to be written at every ID up to its length. */
  ghost predicate SlotsOf(fmt: Format, d: MissionData, slots: seq<Json>) {
    && |slots| <= 0x1_0000
    && forall i {:trigger At(i)} :: At(i) && 0 <= i < |slots| ==>
         slots[i] == fmt.entity(StreamSlot(fmt, d, i as uint16))
  }

  /** Picks the soldier filed under id, else the vehicle, else the placeholder. */
  method WriteEntityForId(w: Writer, fmt: Format, id: uint16, d: MissionData, maxFrame: Frame,
                          fireLines: map<uint16, seq<Json>>, ghost slots: seq<Json>, ghost pieces: seq<seq<Token>>)
    requires maxFrame == MaxFrame(d) && GroupedLines(fmt, d, fireLines)
    requires SlotsOf(fmt, d, slots) && PiecesOf(slots, pieces) && id as int < |slots|
    modifies w
    ensures w.out == old(w.out) + pieces[id as int]
  {
    assert At(id as int);
    if id in d.soldiers {
      var e := BuildSoldierEntity(fmt, d.soldiers[id], maxFrame, LinesAt(fireLines, id));
      w.WriteJson(fmt.entity(e));
    } else if id in d.vehicles {
      var e := BuildVehicleEntity(fmt, d.vehicles[id], maxFrame);
      w.WriteJson(fmt.entity(e));
    } else {
      w.WriteJson(fmt.entity(PLACEHOLDER));
    }
  }

  /** Token lists with a comma between any two. */
  ghost function Join(pieces: seq<seq<Token>>): seq<Token> {
    if pieces == [] then []
    else if |pieces| == 1 then pieces[0]
    else Join(pieces[..|pieces| - 1]) + [Comma] + pieces[|pieces| - 1]
  }

  ghost predicate PiecesOf(slots: seq<Json>, pieces: seq<seq<Token>>) {
    |pieces| == |slots| && forall i :: 0 <= i < |slots| ==> pieces[i] == Emit(slots[i])
  }

  lemma {:induction false} JoinIsItems(slots: seq<Json>, pieces: seq<seq<Token>>)
    requires PiecesOf(slots, pieces)
    ensures Join(pieces) == EmitItems(slots)
  {
    if |slots| > 1 {
      JoinIsItems(slots[..|slots| - 1], pieces[..|slots| - 1]);
    }
  }

  lemma JoinSnoc(start: seq<Token>, pieces: seq<seq<Token>>, n: nat)
    requires n < |pieces|
    ensures start + Join(pieces[..n + 1])
         == start + Join(pieces[..n]) + (if n == 0 then [] else [Comma]) + pieces[n]
  {
    assert pieces[..n + 1][..n] == pieces[..n];
  }

  /**
   The entity loop. id is a 16-bit counter and the loop stops after writing maxEntityId, so
   id+1 is never computed beyond it: no wrap-around, for every maxEntityId up to 65535.
   */
  method WriteEntities(w: Writer, fmt: Format, d: MissionData, maxFrame: Frame, maxEntityId: uint16,
                       fireLines: map<uint16, seq<Json>>, ghost slots: seq<Json>, ghost pieces: seq<seq<Token>>)
    requires maxFrame == MaxFrame(d)
    requires GroupedLines(fmt, d, fireLines)
    requires |slots| == maxEntityId as int + 1
    requires SlotsOf(fmt, d, slots) && PiecesOf(slots, pieces)
    modifies w
    ensures w.out == old(w.out) + Join(pieces)
  {
    var id: uint16 := 0;
    while true
      invariant id <= maxEntityId
      invariant w.out == old(w.out) + Join(pieces[..id as int])
      decreases maxEntityId - id
    {
      JoinSnoc(old(w.out), pieces, id as nat);
      if id > 0 {
        w.WriteToken(Comma);
      }
      WriteEntityForId(w, fmt, id, d, maxFrame, fireLines, slots, pieces);
      if id == maxEntityId {
        assert pieces[..id as int + 1] == pieces;
        break;
      }
      id := id + 1;
    }
  }

  lemma EmitFieldsSnoc(fields: seq<Field>, f: Field)
    ensures EmitFields(fields + [f]) == EmitFields(fields) + (if fields == [] then [] else [Comma]) + EmitField(f)
  {
    assert (fields + [f])[..|fields|] == fields;
  }

  /** The fields before the entities, one by one. */
  method WriteHeader(w: Writer, fields: seq<Field>)
    modifies w
    ensures w.out == old(w.out) + EmitFields(fields)
  {
    for i := 0 to |fields|
      invariant w.out == old(w.out) + EmitFields(fields[..i])
    {
      EmitFieldsSnoc(fields[..i], fields[i]);
      assert fields[..i + 1] == fields[..i] + [fields[i]];
      w.WriteField(i > 0, fields[i].key, fields[i].value);
    }
    assert fields[..|fields|] == fields;
  }

  /** The entity array, between its brackets. */
  method WriteEntityArray(w: Writer, fmt: Format, d: MissionData, maxFrame: Frame, maxEntityId: uint16,
                          hasEntities: bool, fireLines: map<uint16, seq<Json>>, ghost slots: seq<Json>)
    requires maxFrame == MaxFrame(d)
    requires GroupedLines(fmt, d, fireLines)
    requires |slots| == if hasEntities then maxEntityId as int + 1 else 0
    requires SlotsOf(fmt, d, slots)
    modifies w
    ensures w.out == old(w.out) + [Comma] + EmitField(Field("entities", JArr(slots)))
  {
    ghost var start := w.out;
    ghost var pieces := seq(|slots|, i requires 0 <= i < |slots| => Emit(slots[i]));
    JoinIsItems(slots, pieces);
    w.WriteToken(Comma);
    w.WriteToken(TStr("entities"));
    w.WriteToken(Colon);
    w.WriteToken(LBracket);
    if hasEntities {
      WriteEntities(w, fmt, d, maxFrame, maxEntityId, fireLines, slots, pieces);
    }
    w.WriteToken(RBracket);
    ArrayField(start, "entities", Join(pieces));
  }

  lemma ArrayField(start: seq<Token>, key: string, items: seq<Token>)
    ensures start + [Comma] + [TStr(key)] + [Colon] + [LBracket] + items + [RBracket]
         == start + [Comma] + ([TStr(key), Colon] + ([LBracket] + items + [RBracket]))
  {
  }

  /** The header, from what is known before the entities are written. */
  function Header(d: MissionData, maxFrame: Frame, times: seq<TimeRow>): seq<Field> {
    HeaderFields(Export(d.mission.addonVersion, d.mission.extensionVersion, d.mission.extensionBuild,
                        d.mission.missionName, d.mission.author, d.world.worldName, FrameToV1(maxFrame),
                        d.mission.captureDelay, d.mission.tag, times, [], [], []))
  }

  /** The document in the pieces it is written in. */
  ghost predicate InPieces(fmt: Format, d: MissionData, slots: seq<Json>, doc: Json) {
    && SlotsOf(fmt, d, slots)
    && |slots| == (if HasEntities(d) then MaxId(d) + 1 else 0)
    && var header := Header(d, MaxFrame(d), MapSeq(fmt.time, d.timeStates));
       header != []
       && doc == JObj(header + [Field("entities", JArr(slots)),
                                Field("events", JArr(MapSeq(fmt.event, Events(fmt, d)))),
                                Field("Markers", JArr(Markers(fmt, d)))])
  }

  lemma StreamParts(fmt: Format, d: MissionData)
    ensures InPieces(fmt, d, MapSeq(fmt.entity, StreamExport(fmt, d).entities), ExportJson(fmt, StreamExport(fmt, d)))
  {
  }

  method Stream(w: Writer, fmt: Format, d: MissionData)
    modifies w
    ensures w.out == old(w.out) + Emit(ExportJson(fmt, StreamExport(fmt, d)))
  {
    ghost var whole := StreamExport(fmt, d);
    StreamParts(fmt, d);
    StreamPieces(w, fmt, d, MapSeq(fmt.entity, whole.entities), ExportJson(fmt, whole));
  }

  method StreamPieces(w: Writer, fmt: Format, d: MissionData, ghost slots: seq<Json>, ghost doc: Json)
    requires InPieces(fmt, d, slots, doc)
    modifies w
    ensures w.out == old(w.out) + Emit(doc)
  {
    var maxFrame, maxEntityId, hasEntities := ComputeMetadata(d);
    var times := AppendMapped(fmt.time, d.timeStates, []);
    assert times == MapSeq(fmt.time, d.timeStates);
    var events, markers, fireLines := BuildAggregates(fmt, d);
    var header := Header(d, maxFrame, times);
    WriteExport(w, fmt, d, maxFrame, maxEntityId, hasEntities, fireLines, header, slots, events, markers);
  }

  /** buildAggregates, and the sorting Stream does right after it. */
  method BuildAggregates(fmt: Format, d: MissionData)
    returns (events: Json, markers: Json, fireLines: map<uint16, seq<Json>>)
    ensures events == JArr(MapSeq(fmt.event, Events(fmt, d)))
    ensures markers == JArr(Markers(fmt, d))
    ensures GroupedLines(fmt, d, fireLines)
  {
    var rows, ms := CollectRows(fmt, d);
    rows, ms, fireLines := CollectProjectiles(fmt, d, rows, ms);
    rows := StableSort(EventFrame, rows);
    events, markers := JArr(MapSeq(fmt.event, rows)), JArr(ms);
  }

  /** Everything between the braces, once header, events and markers are known. */
  method WriteExport(w: Writer, fmt: Format, d: MissionData, maxFrame: Frame, maxEntityId: uint16,
                     hasEntities: bool, fireLines: map<uint16, seq<Json>>, header: seq<Field>,
                     ghost slots: seq<Json>, events: Json, markers: Json)
    requires header != []
    requires maxFrame == MaxFrame(d)
    requires GroupedLines(fmt, d, fireLines)
    requires |slots| == if hasEntities then maxEntityId as int + 1 else 0
    requires SlotsOf(fmt, d, slots)
    modifies w
    ensures w.out == old(w.out) + Emit(JObj(header
      + [Field("entities", JArr(slots)), Field("events", events), Field("Markers", markers)]))
  {
    ghost var start := w.out;
    w.WriteToken(LBrace);
    WriteHeader(w, header);
    WriteEntityArray(w, fmt, d, maxFrame, maxEntityId, hasEntities, fireLines, slots);
    w.WriteField(true, "events", events);
    w.WriteField(true, "Markers", markers);
    w.WriteToken(RBrace);
    ThreeMoreFields(start, header, Field("entities", JArr(slots)), Field("events", events), Field("Markers", markers));
  }

  lemma ThreeMoreFields(start: seq<Token>, header: seq<Field>, f1: Field, f2: Field, f3: Field)
    requires header != []
    ensures start + [LBrace] + EmitFields(header) + [Comma] + EmitField(f1) + [Comma] + EmitField(f2)
            + [Comma] + EmitField(f3) + [RBrace]
         == start + Emit(JObj(header + [f1, f2, f3]))
  {
    EmitFieldsSnoc(header, f1);
    EmitFieldsSnoc(header + [f1], f2);
    EmitFieldsSnoc(header + [f1] + [f2], f3);
    assert header + [f1] + [f2] + [f3] == header + [f1, f2, f3];
    Regroup(start, EmitFields(header), EmitField(f1), EmitField(f2), EmitField(f3));
  }

  lemma Regroup(start: seq<Token>, h: seq<Token>, a: seq<Token>, b: seq<Token>, c: seq<Token>)
    ensures start + [LBrace] + h + [Comma] + a + [Comma] + b + [Comma] + c + [RBrace]
         == start + ([LBrace] + (h + [Comma] + a + [Comma] + b + [Comma] + c) + [RBrace])
  {
  }
}
