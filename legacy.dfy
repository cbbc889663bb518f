/**
 * The older alert loop of the Smart Stick page (`detectFrame` in
 * smartstick-webapp/public/app.js). It remembers only the signature it last
 * saw and, when the signature changes to a non-empty one, warns once per
 * detection, each warning followed by the strong vibration.
 */
module Legacy {
  import opened Classifier
  import opened Announcements

  /** The warnings for a list of labels: a spoken warning then a vibration, per label, in order. */
  function Warnings(labels: seq<string>): seq<Output>
  {
    if labels == [] then []
    else Warnings(labels[..|labels| - 1]) + [Speak(Warning(labels[|labels| - 1])), Vibrate(StrongPattern)]
  }

  /** What one frame does: the new remembered signature and the outputs. */
  datatype LegacyResult = LegacyResult(next: string, outputs: seq<Output>)

  /** One frame of the older `detectFrame`, given the signature it last saw. */
  function LegacyStep(lastAnnounced: string, ds: seq<Detection>): LegacyResult
  {
    var sig := Signature(ds);
    if sig != lastAnnounced then
      LegacyResult(sig, if ds != [] then Warnings(Labels(ds)) else [])
    else
      LegacyResult(lastAnnounced, [])
  }

  /** The page state: the last announced signature and the output log. */
  class LegacyAnnouncer {
    var lastAnnouncedObjects: string
    var log: seq<Output>

    constructor ()
      ensures lastAnnouncedObjects == "" && log == []
    {
      lastAnnouncedObjects := "";
      log := [];
    }

    /** The older `detectFrame` on one frame of detections. */
    method DetectFrame(predictions: seq<Detection>)
      modifies this
      ensures lastAnnouncedObjects == LegacyStep(old(lastAnnouncedObjects), predictions).next
      ensures log == old(log) + LegacyStep(old(lastAnnouncedObjects), predictions).outputs
    {
      var objects := Labels(predictions);
      var objectsStr := Join(objects, ", ");
      if objectsStr != lastAnnouncedObjects {
        if |objects| > 0 {
          var i := 0;
          while i < |objects|
            invariant 0 <= i <= |objects|
            invariant log == old(log) + Warnings(objects[..i])
          {
            assert objects[..i + 1][..i] == objects[..i];
            log := log + [Speak(Warning(objects[i]))];
            log := log + [Vibrate(StrongPattern)];
            i := i + 1;
          }
          assert objects[..i] == objects;
        }
        lastAnnouncedObjects := objectsStr;
      }
    }
  }

  /** The warnings speak each label once, in order, each followed by the strong vibration. */
  lemma {:induction false} WarningsInOrder(labels: seq<string>)
    ensures |Warnings(labels)| == 2 * |labels|
    ensures forall i :: 0 <= i < |labels| ==>
              Warnings(labels)[2 * i] == Speak(Warning(labels[i])) &&
              Warnings(labels)[2 * i + 1] == Vibrate(StrongPattern)
  {
    if labels != [] {
      var init := labels[..|labels| - 1];
      WarningsInOrder(init);
      assert forall i :: 0 <= i < |init| ==> init[i] == labels[i];
    }
  }

  /** After every frame the remembered signature is that frame's signature. */
  lemma StateIsSignature(last: string, ds: seq<Detection>)
    ensures LegacyStep(last, ds).next == Signature(ds)
  {
  }

  /** A frame whose signature equals the remembered one is silent. */
  lemma SameSignatureSilent(last: string, ds: seq<Detection>)
    requires Signature(ds) == last
    ensures LegacyStep(last, ds).outputs == []
  {
  }

  /**
   * A non-empty frame with a new signature warns about each detection once,
   * in detection order: one spoken warning and one vibration per detection.
   */
  lemma ChangedSignatureWarnsEach(last: string, ds: seq<Detection>)
    requires ds != [] && Signature(ds) != last
    ensures var out := LegacyStep(last, ds).outputs;
            |out| == 2 * |ds| &&
            (forall i :: 0 <= i < |ds| ==>
               out[2 * i] == Speak(Warning(ds[i].cls)) && out[2 * i + 1] == Vibrate(StrongPattern))
  {
    WarningsInOrder(Labels(ds));
  }

  /** An empty frame is silent and leaves the empty signature remembered. */
  lemma EmptyFrameSilentReset(last: string)
    ensures LegacyStep(last, []) == LegacyResult("", [])
  {
  }

  /** The same frame twice in a row: only the first can announce, and the second changes nothing. */
  lemma RepeatedFrameSilent(last: string, ds: seq<Detection>)
    ensures var r1 := LegacyStep(last, ds);
            LegacyStep(r1.next, ds) == LegacyResult(r1.next, [])
  {
  }
}
