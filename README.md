# Smart Stick obstacle alerts — a Dafny model

The Smart Stick web app watches a camera feed with an object detector and tells
a visually-impaired walker what is in front of them, by speech and vibration.
This project models the decision logic of that app:

- the **classifier** (`getDirection`, `isTrafficObject`): which third of the
  frame the detections are in, resolved with centre priority, then majority,
  then "clear"; and whether any detection is a vehicle or traffic light;
- the **distance estimator** (`estimateDistance`): reference width over box
  width, with JavaScript's `NaN`/`Infinity` behaviour, the `|| 0` fallback and
  the clamp to [0.5, 5] metres;
- the **alert arbiter** (`detectFrame` in `src/app.js`): the closest detection,
  the one message and vibration pattern of a frame, and the `lastObjects` /
  `lastDirection` state, as a class `Arbiter.AlertArbiter` whose method is
  proved against the one-frame specification `Arbiter.Step`;
- the **older alert loop** (`detectFrame` in `public/app.js`): de-duplication
  on the joined class-label signature, one warning per detection, as a class
  `Legacy.LegacyAnnouncer` with the per-object loop;
- the **voice commands** (`recognition.onresult`): trim, lower-case, then the
  first of "scan left", "scan right", "go forward", "help" that occurs.

Speaking, vibrating and the siren are not calls: each is an `Output` appended,
in issue order, to the object's `log`. The frame width, which the app reads
from the video element, is a parameter. Files: `wrappers.dfy`,
`classifier.dfy`, `distance.dfy`, `announcements.dfy` (messages, patterns,
signature), `arbiter.dfy`, `legacy.dfy`, `voice.dfy`.

Points where the code is easy to misread, all followed by the model:

- the closest detection is the **last** of several equally wide boxes, because
  the reduction keeps the accumulator only when it is strictly wider;
- a box of width 0 is estimated at **5.0 m**: `80 / 0` is `Infinity`, which is
  truthy, so the fallback to 0 does not apply; of the degenerate widths, only
  a missing width (`NaN`) or a negative width gives 0.5 m;
- a non-empty frame **always** speaks; the signature and direction are stored
  but never compared for non-empty frames, and the five-second interval
  constant is never used; only empty frames are de-duplicated;
- the state starts with an empty direction, not the clear baseline, so the
  very first empty frame says the path is now clear.

## Model

| member | source | states |
|---|---|---|
| Classifier.GetDirection | smartstick-webapp/src/app.js:63-78 | the loop's three tallies are the per-zone counts of the boxes, and the returned direction is their resolution: centre if any centre box, else the majority side, else clear |
| Classifier.IsTrafficObject | smartstick-webapp/src/app.js:80-83 | true exactly when some detection's class is one of car, bus, truck, motorcycle, bicycle, traffic light (so false for no detections) |
| Classifier.CountsPartition | smartstick-webapp/src/app.js:67-73 | every box is tallied in exactly one of left, right, centre: the three counts sum to the number of detections |
| Classifier.CountPositiveIff | smartstick-webapp/src/app.js:67-74 | a zone's count is positive exactly when some box lies in that zone |
| Classifier.CenterPriority | smartstick-webapp/src/app.js:70-74 | a box neither ending before W/3 nor starting after 2W/3 makes the result centre, whatever the left and right counts |
| Classifier.MajorityWithoutCenter | smartstick-webapp/src/app.js:75-77 | with no centre box: left iff more left boxes, right iff more right boxes, clear iff the counts tie |
| Classifier.CenterOnlyFromCenterBox | smartstick-webapp/src/app.js:72-74 | centre is returned only when some box lies in the centre zone |
| Classifier.EmptyFrameIsClear | smartstick-webapp/src/app.js:66-82 | no detections give direction clear and no traffic |
| Distance.EstimateDistance | smartstick-webapp/src/app.js:85-94 | for every width, present or missing, positive, zero or negative, the estimate is a finite number in [0.5, 5] |
| Distance.EstimateUnclamped | smartstick-webapp/src/app.js:88-93 | for widths 16 to 160 the estimate is exactly 80 divided by the width |
| Distance.EstimateNonIncreasing | smartstick-webapp/src/app.js:90-93 | for positive widths, a wider box is never estimated farther away |
| Distance.EstimateFixedWidths | smartstick-webapp/src/app.js:88-93 | width 80 gives 1.0, width 0 gives 5.0 (the quotient is Infinity, which is truthy), a missing width gives 0.5 (NaN falls back to 0) |
| Distance.EstimateNegativeWidth | smartstick-webapp/src/app.js:90-93 | a negative width gives 0.5 |
| Announcements.Labels | smartstick-webapp/public/app.js:38 | one label per detection, the i-th being the i-th detection's class, so the signature follows detection order |
| Announcements.Join | smartstick-webapp/public/app.js:39 | `join(', ')` result length is the parts' total plus one separator per gap, and the result begins with the first part |
| Announcements.JoinSnoc | smartstick-webapp/public/app.js:39 | joining one more part appends exactly the separator and that part; with no parts giving "" and one part giving itself, this fixes the join on every input: every part, in order, one separator between neighbours and none at either end |
| Announcements.Signature | smartstick-webapp/public/app.js:38-39 | the signature of no detections is "", of one detection its class, and otherwise begins with the first detection's class |
| Announcements.SignatureSnoc | smartstick-webapp/src/app.js:106 | one more detection extends the signature by ", " and its class, so the signature lists every class in detection order |
| Announcements.Render | smartstick-webapp/src/app.js:116-126 | each spoken template as the code writes it; the caution and obstacle messages end with the distance phrase, and a warning begins "Warning! <class>" |
| Announcements.DistanceText | smartstick-webapp/src/app.js:116 | the distance phrase begins with the closest detection's class and ends with " meters ahead." |
| Announcements.JoinEmptyIff | smartstick-webapp/public/app.js:38-42 | a ", "-join is empty exactly for no parts or a single empty part, so an empty signature means an empty frame or one detection with an empty label |
| Arbiter.ClosestIndex | smartstick-webapp/src/app.js:114 | the chosen detection has maximal box width, and every later detection is strictly narrower, so ties go to the last widest box |
| Arbiter.AlertArbiter.constructor | smartstick-webapp/src/app.js:4-5 | the page starts with an empty signature, an empty direction and nothing said |
| Arbiter.AlertArbiter.DetectFrame | smartstick-webapp/src/app.js:104-144 | the new state and the outputs appended to the log are those of the one-frame specification applied to the old state |
| Arbiter.NonEmptyFrameSpeaksOnce | smartstick-webapp/src/app.js:113-132 | a non-empty frame speaks exactly one message and leaves the state (joined class list, direction) |
| Arbiter.NonEmptyFrameIgnoresState | smartstick-webapp/src/app.js:113-132 | what a non-empty frame does does not depend on the prior state: there is no de-duplication, so a repeated or hazard frame always speaks |
| Arbiter.ClosestUnique | smartstick-webapp/src/app.js:114 | "widest, and every later box strictly narrower" leaves exactly one detection, so the lemmas below name the reduction's pick |
| Arbiter.TrafficFrameCautions | smartstick-webapp/src/app.js:114-121 | with traffic present the outputs are the strong pattern, the siren and the caution message about the closest detection (widest, last among ties) at a distance in [0.5, 5] |
| Arbiter.NonTrafficFrameDirects | smartstick-webapp/src/app.js:122-128 | without traffic the outputs are the default pattern then one message carrying the closest detection's phrase: left means move right, right means move left, centre means scan both sides, clear means path clear (no phrase), each in both directions |
| Arbiter.EmptyFrameAnnouncesIffNotBaseline | smartstick-webapp/src/app.js:133-142 | an empty frame says "path is now clear" with pattern [100] exactly when the state is not ('', clear), and always leaves ('', clear) |
| Arbiter.SecondEmptyFrameSilent | smartstick-webapp/src/app.js:135-141 | after one empty frame a second one is silent and leaves the state unchanged |
| Arbiter.CarAtOneMetre | smartstick-webapp/src/app.js:113-121 | one car 80 pixels wide in a 320-pixel frame gives the strong pattern, the siren and "Caution! ... car detected, 1.0 meters ahead." |
| Arbiter.FirstEmptyFrameAnnounces | smartstick-webapp/src/app.js:135-139 | from the initial state the first empty frame announces that the path is now clear |
| Legacy.LegacyAnnouncer.constructor | smartstick-webapp/public/app.js:4 | the remembered signature starts empty and nothing has been said |
| Legacy.LegacyAnnouncer.DetectFrame | smartstick-webapp/public/app.js:36-51 | the per-object loop appends exactly the warnings of the one-frame specification, and the remembered signature becomes the one it gives |
| Legacy.WarningsInOrder | smartstick-webapp/public/app.js:43-46 | the warnings are one "Warning! <class> ahead." followed by the strong vibration per label, in label order, and nothing else |
| Legacy.StateIsSignature | smartstick-webapp/public/app.js:41-48 | after every frame the remembered signature is the frame's signature |
| Legacy.SameSignatureSilent | smartstick-webapp/public/app.js:41 | a frame whose signature equals the remembered one says and vibrates nothing |
| Legacy.ChangedSignatureWarnsEach | smartstick-webapp/public/app.js:41-47 | a non-empty frame with a new signature gives one warning and one vibration per detection, in detection order |
| Legacy.EmptyFrameSilentReset | smartstick-webapp/public/app.js:42-48 | an empty frame is silent and leaves the empty signature remembered |
| Legacy.RepeatedFrameSilent | smartstick-webapp/public/app.js:41-49 | processing the same frame twice in a row: the second time is silent and changes nothing |
| Voice.Trim | smartstick-webapp/src/app.js:158 | the trimmed command neither starts nor ends with JavaScript white space |
| Voice.TrimIsSlice | smartstick-webapp/src/app.js:158 | the trimmed command is a slice of the transcript, and what is cut from both ends is white space only |
| Voice.Includes | smartstick-webapp/src/app.js:159-165 | true exactly when the keyword occurs at some position of the command |
| Voice.ToLower | smartstick-webapp/src/app.js:158 | the lower-cased command has the same length, contains no letter A to Z, and has white space at exactly the positions the transcript has it (only A to Z are mapped; see below) |
| Voice.ToLowerIdempotent | smartstick-webapp/src/app.js:158 | lower-casing an already lower-cased command changes nothing |
| Voice.TrimKeepsKeywords | smartstick-webapp/src/app.js:158 | trimming does not change which of the four keywords the lower-cased transcript contains |
| Voice.Respond | smartstick-webapp/src/app.js:158-169 | the reply to a transcript is the reply to its lower-cased form untrimmed: trimming never changes the reply, since every keyword starts and ends with a letter |
| Voice.Dispatch | smartstick-webapp/src/app.js:159-169 | a reply is at most three outputs and opens with one of the four voice responses; only the emergency reply has more than one output |
| Voice.DispatchPrecedence | smartstick-webapp/src/app.js:159-169 | at most one reply is spoken; none iff no keyword occurs; the reply is that of the first keyword found in the order scan left, scan right, go forward, help, whatever later keywords occur; the strong vibration and siren come only from "help" with no earlier keyword |
| Voice.CaseInsensitive | smartstick-webapp/src/app.js:158 | a transcript and its lower-cased form get the same reply |

## Left out

- Browser I/O: webcam setup, loading and running the detector, the speech engine (including cancelling speech in progress), the vibration motor, the siren audio and the checks for whether the browser has these features. Their effects are entries in the output log.
- Frame scheduling (`requestAnimationFrame`, `setTimeout`) and the asynchronous `await` of the detector: the model handles one frame per call.
- Status text, the on-screen prompt, the spoken tutorial and the page event wiring.
- The touch-to-reload, long-press emergency location and battery handlers of `public/app.js`: device features outside the alert logic.
- `lastSpeakTime` and the clock: they are written but never read, and the interval constant is unused.
- Distance.EstimateDistance: the one-decimal string formatting of the estimate is not modelled; the result is the clamped number before formatting, and messages carry it as a real.
- Distance.EstimateDistance: JavaScript's negative zero is not modelled (a width of -0 would give 0.5, like other negative widths).
- Detections are assumed to carry numeric boxes, as the detector produces; a missing or `NaN` box entry is modelled only for the width passed to the distance estimate.
- JavaScript numbers are modelled as exact reals: box coordinates, the frame thirds in the classifier and the quotient 80 / width. Double rounding near a zone boundary or a clamp bound, which could move a box to the neighbouring zone, is not captured.
- Voice.ToLower: lower-cases only the letters A to Z, not the full Unicode case mapping of `toLowerCase`.
- The speech-recognition plumbing: building the recogniser, walking the result list from `resultIndex`, the `isFinal` test and error logging; the model takes one final transcript.
- Route step matching, the navigation session, geocoding and directions are not part of this model: neither modelled file contains them.
