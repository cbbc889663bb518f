/**
 * The alert arbiter of the Smart Stick web app (`detectFrame` in
 * smartstick-webapp/src/app.js). Each frame either speaks one message about
 * the closest detection or, for an empty frame, says once that the path is
 * clear. The module-level `lastObjects` / `lastDirection` become the fields of
 * an `AlertArbiter` object; `Step` is the specification of one frame.
 */
module Arbiter {
  import opened Wrappers
  import opened Classifier
  import opened Distance
  import opened Announcements

  /**
   * The closest detection, as `reduce((a, b) => a.width > b.width ? a : b)`
   * picks it: a left fold that keeps the accumulator only when it is strictly
   * wider, so the last of several equally wide boxes wins.
   */
  function ClosestIndex(ds: seq<Detection>): (k: nat)
    requires ds != []
    ensures k < |ds|
    ensures forall j :: 0 <= j < |ds| ==> ds[j].bbox.width <= ds[k].bbox.width
    ensures forall j :: k < j < |ds| ==> ds[j].bbox.width < ds[k].bbox.width
  {
    if |ds| == 1 then 0
    else
      var a := ClosestIndex(ds[..|ds| - 1]);
      assert forall j :: 0 <= j < |ds| - 1 ==> ds[..|ds| - 1][j] == ds[j];
      if ds[a].bbox.width > ds[|ds| - 1].bbox.width then a else |ds| - 1
  }

  /** The arbiter's memory: the last signature and the last direction (`None` is the initial ''). */
  datatype AlertState = AlertState(lastObjects: string, lastDirection: Option<Direction>)

  /** The state at page load: both strings empty. */
  const Initial: AlertState := AlertState("", None)
  /** The state an empty frame resets to. */
  const Baseline: AlertState := AlertState("", Some(Clear))

  /** What one frame does: the new state and the outputs, in issue order. */
  datatype StepResult = StepResult(next: AlertState, outputs: seq<Output>)

  /** The phrase about the closest detection of a non-empty frame. */
  function ClosestPhrase(ds: seq<Detection>): Phrase
    requires ds != []
  {
    var c := ds[ClosestIndex(ds)];
    Phrase(c.cls, EstimateDistance(Some(c.bbox.width)))
  }

  /** The non-traffic message for each direction. */
  function DirectionMessage(dir: Direction, p: Phrase): Message
  {
    match dir
    case Left => ObstacleLeft(p)
    case Right => ObstacleRight(p)
    case Center => ObstacleAhead(p)
    case Clear => PathClear
  }

  /** One frame of `detectFrame`, as a function of the prior state, the detections and the frame width. */
  function Step(s: AlertState, ds: seq<Detection>, frameWidth: nat): StepResult
  {
    if ds != [] then
      var dir := Classify(ds, frameWidth);
      var p := ClosestPhrase(ds);
      var out := if IsTrafficObject(ds) then [Vibrate(StrongPattern), Siren, Speak(Caution(p))]
                 else [Vibrate(DefaultPattern), Speak(DirectionMessage(dir, p))];
      StepResult(AlertState(Signature(ds), Some(dir)), out)
    else if s.lastObjects != "" || s.lastDirection != Some(Clear) then
      StepResult(Baseline, [Speak(PathNowClear), Vibrate(ShortPattern)])
    else
      StepResult(s, [])
  }

  /** The module-level state of the page and the log of what it has said and vibrated. */
  class AlertArbiter {
    var lastObjects: string
    var lastDirection: Option<Direction>
    var log: seq<Output>

    function State(): AlertState
      reads this
    {
      AlertState(lastObjects, lastDirection)
    }

    constructor ()
      ensures State() == Initial && log == []
    {
      lastObjects := "";
      lastDirection := None;
      log := [];
    }

    /** `detectFrame` on one frame of detections. */
    method DetectFrame(predictions: seq<Detection>, frameWidth: nat)
      modifies this
      ensures State() == Step(old(State()), predictions, frameWidth).next
      ensures log == old(log) + Step(old(State()), predictions, frameWidth).outputs
    {
      var objects := Signature(predictions);
      var direction := GetDirection(predictions, frameWidth);
      var traffic := IsTrafficObject(predictions);
      if |predictions| > 0 {
        var closest := predictions[ClosestIndex(predictions)];
        var distance := EstimateDistance(Some(closest.bbox.width));
        var phrase := Phrase(closest.cls, distance);
        var speakMsg;
        if traffic {
          speakMsg := Caution(phrase);
          log := log + [Vibrate(StrongPattern)];
          log := log + [Siren];
        } else {
          if direction == Left {
            speakMsg := ObstacleLeft(phrase);
          } else if direction == Right {
            speakMsg := ObstacleRight(phrase);
          } else if direction == Center {
            speakMsg := ObstacleAhead(phrase);
          } else {
            speakMsg := PathClear;
          }
          log := log + [Vibrate(DefaultPattern)];
        }
        log := log + [Speak(speakMsg)];
        lastObjects := objects;
        lastDirection := Some(direction);
      } else {
        if lastObjects != "" || lastDirection != Some(Clear) {
          log := log + [Speak(PathNowClear)];
          log := log + [Vibrate(ShortPattern)];
          lastObjects := "";
          lastDirection := Some(Clear);
        }
      }
    }
  }

  /**
   * A non-empty frame speaks exactly once, and afterwards the state is the
   * frame's signature and direction.
   */
  lemma NonEmptyFrameSpeaksOnce(s: AlertState, ds: seq<Detection>, frameWidth: nat)
    requires ds != []
    ensures SpeakCount(Step(s, ds, frameWidth).outputs) == 1
    ensures Step(s, ds, frameWidth).next == AlertState(Signature(ds), Some(Classify(ds, frameWidth)))
  {
    var out := Step(s, ds, frameWidth).outputs;
    if IsTrafficObject(ds) {
      assert out[..2][..1] == [Vibrate(StrongPattern)];
      assert SpeakCount(out[..2]) == 0;
    } else {
      assert out[..1] == [Vibrate(DefaultPattern)];
      assert SpeakCount(out[..1]) == 0;
    }
  }

  /**
   * No de-duplication for non-empty frames: what a non-empty frame says does
   * not depend on the prior state, so repeating a frame repeats its message.
   */
  lemma NonEmptyFrameIgnoresState(s1: AlertState, s2: AlertState, ds: seq<Detection>, frameWidth: nat)
    requires ds != []
    ensures Step(s1, ds, frameWidth) == Step(s2, ds, frameWidth)
  {
  }

  /**
   * `k` is the detection the reduction picks: no detection is wider, and
   * every later one is strictly narrower.
   */
  ghost predicate IsClosest(ds: seq<Detection>, k: nat)
  {
    k < |ds| &&
    (forall j :: 0 <= j < |ds| ==> ds[j].bbox.width <= ds[k].bbox.width) &&
    (forall j :: k < j < |ds| ==> ds[j].bbox.width < ds[k].bbox.width)
  }

  /** These two conditions leave exactly one candidate. */
  lemma ClosestUnique(ds: seq<Detection>, k1: nat, k2: nat)
    requires IsClosest(ds, k1) && IsClosest(ds, k2)
    ensures k1 == k2
  {
    assert ds[k1].bbox.width == ds[k2].bbox.width;
  }

  /**
   * A frame with traffic speaks the caution message about the closest
   * detection (the last of the widest), at a distance inside the clamp
   * bounds, with the strong pattern and the siren, whatever the direction is.
   */
  lemma TrafficFrameCautions(s: AlertState, ds: seq<Detection>, frameWidth: nat)
    requires exists i :: 0 <= i < |ds| && ds[i].cls in TrafficLabels
    ensures exists k: nat :: IsClosest(ds, k) &&
              (var p := Phrase(ds[k].cls, EstimateDistance(Some(ds[k].bbox.width)));
               MinDistance <= p.meters <= MaxDistance &&
               Step(s, ds, frameWidth).outputs == [Vibrate(StrongPattern), Siren, Speak(Caution(p))])
  {
    var k := ClosestIndex(ds);
    assert IsClosest(ds, k);
  }

  /**
   * A frame without traffic speaks, after the default pattern, the
   * direction's instruction with the closest detection's phrase: obstacle
   * left means move right, right means move left, centre means scan both
   * sides, and a tie means the path is clear (no phrase).
   */
  lemma NonTrafficFrameDirects(s: AlertState, ds: seq<Detection>, frameWidth: nat)
    requires ds != []
    requires forall i :: 0 <= i < |ds| ==> ds[i].cls !in TrafficLabels
    ensures exists k: nat :: IsClosest(ds, k) &&
              (var p := Phrase(ds[k].cls, EstimateDistance(Some(ds[k].bbox.width)));
               var out := Step(s, ds, frameWidth).outputs;
               var dir := Classify(ds, frameWidth);
               |out| == 2 && out[0] == Vibrate(DefaultPattern) &&
               (dir == Left <==> out[1] == Speak(ObstacleLeft(p))) &&
               (dir == Right <==> out[1] == Speak(ObstacleRight(p))) &&
               (dir == Center <==> out[1] == Speak(ObstacleAhead(p))) &&
               (dir == Clear <==> out[1] == Speak(PathClear)))
  {
    var k := ClosestIndex(ds);
    assert IsClosest(ds, k);
  }

  /**
   * An empty frame announces "path is now clear" exactly when the state is
   * not the clear baseline, and always leaves the baseline behind it.
   */
  lemma EmptyFrameAnnouncesIffNotBaseline(s: AlertState, frameWidth: nat)
    ensures Step(s, [], frameWidth).next == Baseline
    ensures Step(s, [], frameWidth).outputs != [] <==> s != Baseline
    ensures s != Baseline ==> Step(s, [], frameWidth).outputs == [Speak(PathNowClear), Vibrate(ShortPattern)]
  {
  }

  /** Two empty frames in a row: the second is silent and changes nothing. */
  lemma SecondEmptyFrameSilent(s: AlertState, frameWidth: nat)
    ensures var s1 := Step(s, [], frameWidth).next;
            Step(s1, [], frameWidth) == StepResult(s1, [])
  {
  }

  /**
   * The page starts outside the baseline, so the very first empty frame
   * announces that the path is clear.
   */
  lemma FirstEmptyFrameAnnounces(frameWidth: nat)
    ensures Step(Initial, [], frameWidth).outputs == [Speak(PathNowClear), Vibrate(ShortPattern)]
  {
  }

  /**
   * One car whose box is 80 pixels wide in a 320-pixel frame: the caution
   * message about the car at 1.0 metre, with the strong pattern and the siren.
   */
  lemma CarAtOneMetre(s: AlertState)
    ensures Step(s, [Detection("car", BBox(100.0, 50.0, 80.0, 60.0))], 320).outputs
            == [Vibrate(StrongPattern), Siren, Speak(Caution(Phrase("car", 1.0)))]
  {
    var ds := [Detection("car", BBox(100.0, 50.0, 80.0, 60.0))];
    assert ds[0].cls in TrafficLabels;
    assert ClosestIndex(ds) == 0;
    EstimateFixedWidths();
  }
}
