/**
 Turning sparse states into a dense timeline. States are represented by their capture frames;
 the end frame is the delete frame when set and the mission's last frame otherwise. Frames are
 1-based inside the recorder and 0-based in the export.
 */
module GapFill {
  import opened Core

  ghost predicate NonDecreasing(frames: seq<Frame>) {
    forall i, j :: 0 <= i < j < |frames| ==> frames[i] <= frames[j]
  }

  function FrameToV1(f: Frame): int { f as int - 1 }

  /** First and last exported frame (both included) that state i stands for. */
  function RangeOf(frames: seq<Frame>, end: Frame, i: nat): (int, int)
    requires i < |frames|
  {
    (FrameToV1(frames[i]),
     if i + 1 < |frames| then FrameToV1(frames[i + 1]) - 1 else FrameToV1(end))
  }

  function Repeat<T>(x: T, n: nat): seq<T> { seq(n, _ => x) }

  function Width(r: (int, int)): nat { if r.0 <= r.1 then r.1 - r.0 + 1 else 0 }

  /** The state numbers written for the first n states, one entry per exported frame. */
  function FillTo(frames: seq<Frame>, end: Frame, n: nat): (r: seq<nat>)
    requires n <= |frames|
    ensures forall k :: 0 <= k < |r| ==> r[k] < n
  {
    if n == 0 then []
    else FillTo(frames, end, n - 1) + Repeat(n - 1, Width(RangeOf(frames, end, n - 1)))
  }

  function Fill(frames: seq<Frame>, end: Frame): (r: seq<nat>)
    ensures forall k :: 0 <= k < |r| ==> r[k] < |frames|
  {
    FillTo(frames, end, |frames|)
  }

  /** State i is the newest one captured at or before frame f. */
  ghost predicate Newest(frames: seq<Frame>, f: int, i: nat) {
    && i < |frames| && frames[i] <= f
    && forall j :: i < j < |frames| ==> frames[j] > f
  }

  /** Entries a gap-free timeline needs: one per frame from the first state to the end frame. */
  function TimelineLength(frames: seq<Frame>, end: Frame): int
    requires frames != []
  {
    var first: int, last: int := frames[0], frames[|frames| - 1];
    last - first + if last <= end then end - last + 1 else 0
  }

  /** Going back in time anywhere makes the timeline too long. */
  lemma {:induction false} FillLength(frames: seq<Frame>, end: Frame, n: nat)
    requires n < |frames|
    ensures frames[0] + |FillTo(frames, end, n)| >= frames[n]
    ensures frames[0] + |FillTo(frames, end, n)| == frames[n]
       <==> (forall i :: 0 <= i < n ==> frames[i] <= frames[i + 1])
  {
    if n > 0 {
      FillLength(frames, end, n - 1);
    }
  }

  lemma {:induction false} StepwiseIsNonDecreasing(frames: seq<Frame>)
    requires forall i :: 0 <= i < |frames| - 1 ==> frames[i] <= frames[i + 1]
    ensures NonDecreasing(frames)
  {
    if frames != [] {
      var n := |frames| - 1;
      StepwiseIsNonDecreasing(frames[..n]);
      forall i | 0 <= i < n ensures frames[i] <= frames[n] {
        if i < n - 1 {
          assert frames[..n][i] <= frames[..n][n - 1];
        }
      }
      forall i, j | 0 <= i < j < |frames| ensures frames[i] <= frames[j] {
        if j < n {
          assert frames[..n][i] <= frames[..n][j];
        }
      }
    }
  }

  /** The timeline has one entry per frame exactly when capture frames never decrease. */
  lemma LengthExact(frames: seq<Frame>, end: Frame)
    requires frames != []
    ensures |Fill(frames, end)| == TimelineLength(frames, end) <==> NonDecreasing(frames)
  {
    FillLength(frames, end, |frames| - 1);
    if forall i :: 0 <= i < |frames| - 1 ==> frames[i] <= frames[i + 1] {
      StepwiseIsNonDecreasing(frames);
    }
  }

  lemma {:induction false} EntriesAreNewest(frames: seq<Frame>, end: Frame, n: nat, k: nat)
    requires NonDecreasing(frames) && n <= |frames| && k < |FillTo(frames, end, n)|
    ensures Newest(frames, frames[0] + k, FillTo(frames, end, n)[k])
  {
    FillLength(frames, end, n - 1);
    if k < |FillTo(frames, end, n - 1)| {
      EntriesAreNewest(frames, end, n - 1, k);
    } else {
      assert FillTo(frames, end, n)[k] == n - 1;
      assert k < |FillTo(frames, end, n - 1)| + Width(RangeOf(frames, end, n - 1));
    }
  }

  /** Entry k of the dense timeline is the newest state at frame c0 + k. */
  lemma FillExact(frames: seq<Frame>, end: Frame)
    requires NonDecreasing(frames) && frames != []
    ensures |Fill(frames, end)| == TimelineLength(frames, end)
    ensures forall k :: 0 <= k < |Fill(frames, end)| ==>
      Newest(frames, frames[0] + k, Fill(frames, end)[k])
  {
    LengthExact(frames, end);
    forall k | 0 <= k < |Fill(frames, end)|
      ensures Newest(frames, frames[0] + k, Fill(frames, end)[k])
    {
      EntriesAreNewest(frames, end, |frames|, k);
    }
  }

  // ---- vehicles: one row per state, carrying its frame range ----

  function Ranges(frames: seq<Frame>, end: Frame): seq<(int, int)> {
    seq(|frames|, i requires 0 <= i < |frames| => RangeOf(frames, end, i))
  }

  /** What a player of the export does with frame ranges: (frame, row number) for every frame. */
  function Expand(ranges: seq<(int, int)>): seq<(int, nat)> {
    if ranges == [] then []
    else
      var n := |ranges| - 1;
      Expand(ranges[..n]) + seq(Width(ranges[n]), k requires 0 <= k => (ranges[n].0 + k, n))
  }

  lemma {:induction false} ExpandChoosesFill(frames: seq<Frame>, end: Frame, n: nat)
    requires n <= |frames|
    ensures var e := Expand(Ranges(frames, end)[..n]);
      && |e| == |FillTo(frames, end, n)|
      && forall k :: 0 <= k < |e| ==> e[k].1 == FillTo(frames, end, n)[k]
  {
    if n > 0 {
      ExpandChoosesFill(frames, end, n - 1);
      assert Ranges(frames, end)[..n][..n - 1] == Ranges(frames, end)[..n - 1];
    }
  }

  lemma {:induction false} ExpandIsConsecutive(frames: seq<Frame>, end: Frame, n: nat, k: nat)
    requires NonDecreasing(frames) && n <= |frames|
    requires k < |Expand(Ranges(frames, end)[..n])|
    ensures Expand(Ranges(frames, end)[..n])[k].0 == FrameToV1(frames[0]) + k
  {
    var rs := Ranges(frames, end);
    assert rs[..n][..n - 1] == rs[..n - 1];
    ExpandChoosesFill(frames, end, n - 1);
    FillLength(frames, end, n - 1);
    if k < |Expand(rs[..n - 1])| {
      ExpandIsConsecutive(frames, end, n - 1, k);
    }
  }

  /**
   Each vehicle range starts right after its neighbour ends, for every input, and expanding the
   ranges makes the choices of the soldier timeline. When frames never decrease the ranges are
   disjoint, and expanding them visits the frames from the first state on one by one.
   */
  lemma VehicleRangesExact(frames: seq<Frame>, end: Frame)
    ensures forall i :: 0 <= i < |frames| - 1 ==>
      Ranges(frames, end)[i + 1].0 == Ranges(frames, end)[i].1 + 1
    ensures |Expand(Ranges(frames, end))| == |Fill(frames, end)|
    ensures forall k :: 0 <= k < |Fill(frames, end)| ==>
      Expand(Ranges(frames, end))[k].1 == Fill(frames, end)[k]
    ensures NonDecreasing(frames) ==> forall i, j :: 0 <= i < j < |frames| ==>
      Ranges(frames, end)[i].1 < Ranges(frames, end)[j].0
    ensures NonDecreasing(frames) ==> forall k :: 0 <= k < |Fill(frames, end)| ==>
      Expand(Ranges(frames, end))[k].0 == FrameToV1(frames[0]) + k
  {
    var rs := Ranges(frames, end);
    assert rs[..|frames|] == rs;
    ExpandChoosesFill(frames, end, |frames|);
    if NonDecreasing(frames) {
      forall k | 0 <= k < |Fill(frames, end)| ensures Expand(rs)[k].0 == FrameToV1(frames[0]) + k {
        ExpandIsConsecutive(frames, end, |frames|, k);
      }
    }
  }

  /**
   With frames in order and the end not before the last state, the ranges cover every frame
   from the first state to the end, each once and with its newest state.
   */
  lemma VehicleCoverage(frames: seq<Frame>, end: Frame)
    requires frames != [] && NonDecreasing(frames) && frames[|frames| - 1] <= end
    ensures var e := Expand(Ranges(frames, end));
      && |e| == end - frames[0] + 1
      && forall k :: 0 <= k < |e| ==>
           e[k].0 == FrameToV1(frames[0]) + k && Newest(frames, frames[0] + k, e[k].1)
  {
    FillExact(frames, end);
    VehicleRangesExact(frames, end);
  }
}
