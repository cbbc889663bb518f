/**
 * Detection classifier of the Smart Stick web app (smartstick-webapp/src/app.js):
 * which third of the frame the detections fall in (`getDirection`) and whether
 * any of them is a vehicle or traffic object (`isTrafficObject`).
 */
module Classifier {

  /** A bounding box as the detector reports it: `[x, y, width, height]` in pixels. */
  datatype BBox = BBox(x: real, y: real, width: real, height: real)

  /** One detection: its class label and its bounding box. */
  datatype Detection = Detection(cls: string, bbox: BBox)

  /** The direction label `getDirection` returns. */
  datatype Direction = Left | Right | Center | Clear

  /** The zone a single box is tallied in. */
  datatype Zone = LeftZone | RightZone | CenterZone

  /**
   * A box is tallied left when it ends before the first third of the frame,
   * right when it starts after the second third, and centre otherwise; the
   * left test is made first.
   */
  function ZoneOf(d: Detection, frameWidth: nat): Zone
  {
    if d.bbox.x + d.bbox.width < frameWidth as real / 3.0 then LeftZone
    else if d.bbox.x > 2.0 * frameWidth as real / 3.0 then RightZone
    else CenterZone
  }

  /** Number of detections tallied in zone `z`. */
  function CountIn(ds: seq<Detection>, frameWidth: nat, z: Zone): nat
  {
    if ds == [] then 0
    else CountIn(ds[..|ds| - 1], frameWidth, z) + (if ZoneOf(ds[|ds| - 1], frameWidth) == z then 1 else 0)
  }

  /** The fixed resolution of the tallies: centre first, then majority, then clear. */
  function Resolve(left: nat, right: nat, center: nat): Direction
  {
    if center > 0 then Center
    else if left > right then Left
    else if right > left then Right
    else Clear
  }

  /** The direction of a whole frame, as a function of its detections. */
  function Classify(ds: seq<Detection>, frameWidth: nat): Direction
  {
    Resolve(CountIn(ds, frameWidth, LeftZone), CountIn(ds, frameWidth, RightZone),
            CountIn(ds, frameWidth, CenterZone))
  }

  /** `getDirection`: tallies the boxes one by one, then resolves the tallies. */
  method GetDirection(predictions: seq<Detection>, frameWidth: nat) returns (dir: Direction)
    ensures dir == Classify(predictions, frameWidth)
  {
    var left, right, center := 0, 0, 0;
    var i := 0;
    while i < |predictions|
      invariant 0 <= i <= |predictions|
      invariant left == CountIn(predictions[..i], frameWidth, LeftZone)
      invariant right == CountIn(predictions[..i], frameWidth, RightZone)
      invariant center == CountIn(predictions[..i], frameWidth, CenterZone)
    {
      assert predictions[..i + 1][..i] == predictions[..i];
      var p := predictions[i];
      var x := p.bbox.x;
      var w := p.bbox.width;
      if x + w < frameWidth as real / 3.0 {
        left := left + 1;
      } else if x > 2.0 * frameWidth as real / 3.0 {
        right := right + 1;
      } else {
        center := center + 1;
      }
      i := i + 1;
    }
    assert predictions[..i] == predictions;
    if center > 0 {
      return Center;
    }
    if left > right {
      return Left;
    }
    if right > left {
      return Right;
    }
    return Clear;
  }

  /** The six class labels `isTrafficObject` treats as vehicles or traffic. */
  const TrafficLabels: seq<string> := ["car", "bus", "truck", "motorcycle", "bicycle", "traffic light"]

  /** `isTrafficObject`: does some detection carry one of the traffic labels? */
  function IsTrafficObject(ds: seq<Detection>): (r: bool)
    ensures r <==> exists i :: 0 <= i < |ds| && ds[i].cls in TrafficLabels
  {
    if ds == [] then false
    else if ds[0].cls in TrafficLabels then true
    else
      var rest := IsTrafficObject(ds[1..]);
      assert forall i :: 1 <= i < |ds| ==> ds[i] == ds[1..][i - 1];
      rest
  }

  /** Every detection is tallied in exactly one zone. */
  lemma {:induction false} CountsPartition(ds: seq<Detection>, frameWidth: nat)
    ensures CountIn(ds, frameWidth, LeftZone) + CountIn(ds, frameWidth, RightZone)
            + CountIn(ds, frameWidth, CenterZone) == |ds|
  {
    if ds != [] {
      CountsPartition(ds[..|ds| - 1], frameWidth);
    }
  }

  /** A zone's tally is positive exactly when some detection lies in that zone. */
  lemma {:induction false} CountPositiveIff(ds: seq<Detection>, frameWidth: nat, z: Zone)
    ensures CountIn(ds, frameWidth, z) > 0 <==> exists i :: 0 <= i < |ds| && ZoneOf(ds[i], frameWidth) == z
  {
    if ds != [] {
      var init := ds[..|ds| - 1];
      CountPositiveIff(init, frameWidth, z);
      assert forall i :: 0 <= i < |init| ==> init[i] == ds[i];
    }
  }

  /**
   * Centre priority: one box that neither ends before the first third nor
   * starts after the second third makes the frame `Center`, whatever the
   * left and right counts are.
   */
  lemma CenterPriority(ds: seq<Detection>, frameWidth: nat, k: nat)
    requires k < |ds|
    requires !(ds[k].bbox.x + ds[k].bbox.width < frameWidth as real / 3.0)
    requires !(ds[k].bbox.x > 2.0 * frameWidth as real / 3.0)
    ensures Classify(ds, frameWidth) == Center
  {
    assert ZoneOf(ds[k], frameWidth) == CenterZone;
    CountPositiveIff(ds, frameWidth, CenterZone);
  }

  /**
   * With no centre box the result is decided by majority: `Left` exactly when
   * more boxes are left, `Right` exactly when more are right, `Clear` on a tie.
   */
  lemma MajorityWithoutCenter(ds: seq<Detection>, frameWidth: nat)
    requires forall i :: 0 <= i < |ds| ==> ZoneOf(ds[i], frameWidth) != CenterZone
    ensures var l, r := CountIn(ds, frameWidth, LeftZone), CountIn(ds, frameWidth, RightZone);
            (Classify(ds, frameWidth) == Left <==> l > r) &&
            (Classify(ds, frameWidth) == Right <==> r > l) &&
            (Classify(ds, frameWidth) == Clear <==> l == r)
  {
    CountPositiveIff(ds, frameWidth, CenterZone);
  }

  /** `Center` is returned only when some box lies in the centre zone. */
  lemma CenterOnlyFromCenterBox(ds: seq<Detection>, frameWidth: nat)
    requires Classify(ds, frameWidth) == Center
    ensures exists i :: 0 <= i < |ds| && ZoneOf(ds[i], frameWidth) == CenterZone
  {
    CountPositiveIff(ds, frameWidth, CenterZone);
  }

  /** An empty frame is `Clear` and holds no traffic. */
  lemma EmptyFrameIsClear(frameWidth: nat)
    ensures Classify([], frameWidth) == Clear
    ensures !IsTrafficObject([])
  {
  }
}
