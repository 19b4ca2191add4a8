/** The frames in a collection of records, and the largest of them. */
module Frames {
  import opened Wrappers
  import opened Core

  function StateFrame(s: SoldierState): Frame { s.captureFrame }

  function VehicleStateFrame(s: VehicleState): Frame { s.captureFrame }

  function PlacedEventFrame(e: PlacedObjectEvent): Frame { e.captureFrame }

  function SoldierFrames(m: map<uint16, SoldierRecord>): map<uint16, seq<Frame>> {
    map k | k in m :: MapSeq(StateFrame, m[k].states)
  }

  function VehicleFrames(m: map<uint16, VehicleRecord>): map<uint16, seq<Frame>> {
    map k | k in m :: MapSeq(VehicleStateFrame, m[k].states)
  }

  function PlacedFrames(m: map<uint16, PlacedRecord>): map<uint16, seq<Frame>> {
    map k | k in m :: MapSeq(PlacedEventFrame, m[k].events)
  }

  ghost function FramesIn(lists: map<uint16, seq<Frame>>): set<int> {
    set k, i | k in lists && 0 <= i < |lists[k]| :: lists[k][i]
  }

  /** Raises a running maximum over all records, in any order. */
  method MaxFrameIn(lists: map<uint16, seq<Frame>>, start: Frame) returns (m: Frame)
    ensures m >= start && forall f :: f in FramesIn(lists) ==> f <= m
    ensures m == start || m in FramesIn(lists)
  {
    m := start;
    var todo := lists.Keys;
    while todo != {}
      invariant todo <= lists.Keys && m >= start && (m == start || m in FramesIn(lists))
      invariant forall k, i :: k in lists && k !in todo && 0 <= i < |lists[k]| ==> lists[k][i] <= m
      decreases todo
    {
      var k :| k in todo;
      for n := 0 to |lists[k]|
        invariant m >= start && (m == start || m in FramesIn(lists))
        invariant forall j, i :: j in lists && j !in todo && 0 <= i < |lists[j]| ==> lists[j][i] <= m
        invariant forall i :: 0 <= i < n ==> lists[k][i] <= m
      {
        if lists[k][n] > m {
          m := lists[k][n];
        }
      }
      todo := todo - {k};
    }
  }

  // ---- identifiers ----

  function SoldierIds(m: map<uint16, SoldierRecord>): map<uint16, uint16> {
    map k | k in m :: m[k].soldier.id
  }

  function VehicleIds(m: map<uint16, VehicleRecord>): map<uint16, uint16> {
    map k | k in m :: m[k].vehicle.id
  }

  ghost function IdsIn(ids: map<uint16, uint16>): set<int> {
    set k | k in ids :: ids[k] as int
  }

  method MaxIdIn(ids: map<uint16, uint16>, start: uint16) returns (m: uint16)
    ensures m >= start && forall x :: x in IdsIn(ids) ==> x <= m as int
    ensures m == start || m as int in IdsIn(ids)
  {
    m := start;
    var todo := ids.Keys;
    while todo != {}
      invariant todo <= ids.Keys && m >= start
      invariant m == start || m as int in IdsIn(ids)
      invariant forall k :: k in ids && k !in todo ==> ids[k] <= m
      decreases todo
    {
      var k :| k in todo;
      if ids[k] > m {
        m := ids[k];
      }
      todo := todo - {k};
    }
  }
}
