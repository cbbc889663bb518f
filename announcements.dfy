/**
 * What the Smart Stick web app hands to its speech and vibration outputs.
 * Speaking, vibrating and playing the siren are not calls here: each becomes an
 * `Output` appended to a log, in the order the app issues them.
 */
module Announcements {
  import opened Classifier

  /** The distance phrase: the closest object's class and its estimated distance in metres. */
  datatype Phrase = Phrase(cls: string, meters: real)

  /** Every message the modelled code speaks. */
  datatype Message =
    | Caution(phrase: Phrase)          // traffic present
    | ObstacleLeft(phrase: Phrase)     // move right
    | ObstacleRight(phrase: Phrase)    // move left
    | ObstacleAhead(phrase: Phrase)    // scan left and right
    | PathClear                        // non-empty frame whose tallies tie
    | PathNowClear                     // first empty frame after a non-clear one
    | Warning(cls: string)             // older page: one per detection
    | ScanningLeft | ScanningRight | MovingForward | EmergencyHelp  // voice commands

  /** One side effect of a frame or a voice command. */
  datatype Output = Speak(msg: Message) | Vibrate(pattern: seq<nat>) | Siren

  /** Vibration patterns, in milliseconds. */
  const StrongPattern: seq<nat> := [500, 200, 500]
  const DefaultPattern: seq<nat> := [200, 100, 200]
  const ShortPattern: seq<nat> := [100]

  /**
   * The spoken text of a message. `fmt` renders a distance; the app uses one
   * decimal place, which is not modelled.
   */
  function Render(m: Message, fmt: real -> string): (r: string)
    ensures HasPhrase(m) ==>
              var d := DistanceText(m.phrase, fmt);
              |d| <= |r| && r[|r| - |d|..] == d
    ensures m.Warning? ==> "Warning! " + m.cls <= r
  {
    if HasPhrase(m) then
      var lead := match m
        case Caution(_) => "Caution! Vehicle or traffic detected. "
        case ObstacleLeft(_) => "Obstacle left. Move right. "
        case ObstacleRight(_) => "Obstacle right. Move left. "
        case _ => "Obstacle ahead. Scan left and right. ";
      ConcatEnds(lead, DistanceText(m.phrase, fmt));
      lead + DistanceText(m.phrase, fmt)
    else
      match m
      case Warning(cls) =>
        ConcatEnds("Warning! " + cls, " ahead.");
        "Warning! " + cls + " ahead."
      case PathClear => "Path clear. Go forward."
      case PathNowClear => "Path is now clear. You can move forward."
      case ScanningLeft => "Scanning left. Please move your camera to the left."
      case ScanningRight => "Scanning right. Please move your camera to the right."
      case MovingForward => "Moving forward. Please proceed."
      case _ => "Emergency help activated."
  }

  /** A concatenation begins with its first part and ends with its second. */
  lemma ConcatEnds(a: string, b: string)
    ensures a <= a + b && (a + b)[|a|..] == b
  {
  }

  /** The four messages that end with the distance phrase. */
  predicate HasPhrase(m: Message)
  {
    m.Caution? || m.ObstacleLeft? || m.ObstacleRight? || m.ObstacleAhead?
  }

  /** The distance phrase names the class first and ends by saying how far ahead it is. */
  function DistanceText(p: Phrase, fmt: real -> string): (r: string)
    ensures p.cls <= r
    ensures |" meters ahead."| <= |r| && r[|r| - |" meters ahead."|..] == " meters ahead."
  {
    ConcatEnds(p.cls + " detected, " + fmt(p.meters), " meters ahead.");
    p.cls + " detected, " + fmt(p.meters) + " meters ahead."
  }

  /** The class labels of a frame, in detection order. */
  function Labels(ds: seq<Detection>): (labels: seq<string>)
    ensures |labels| == |ds|
    ensures forall i :: 0 <= i < |ds| ==> labels[i] == ds[i].cls
  {
    seq(|ds|, i requires 0 <= i < |ds| => ds[i].cls)
  }

  /**
   * JavaScript `Array.prototype.join(sep)` on strings: the parts in order,
   * one separator between each two neighbours, nothing else.
   */
  function Join(parts: seq<string>, sep: string): (r: string)
    ensures |r| == SumLengths(parts) + (if parts == [] then 0 else (|parts| - 1) * |sep|)
    ensures parts != [] ==> parts[0] <= r
  {
    if parts == [] then ""
    else if |parts| == 1 then parts[0]
    else parts[0] + sep + Join(parts[1..], sep)
  }

  /** Total length of the parts. */
  function SumLengths(parts: seq<string>): nat
  {
    if parts == [] then 0 else |parts[0]| + SumLengths(parts[1..])
  }

  /**
   * Appending a part to a non-empty join adds one separator and the part: with
   * the empty and one-part cases this fixes `Join` on every input.
   */
  lemma {:induction false} JoinSnoc(parts: seq<string>, p: string, sep: string)
    requires parts != []
    ensures Join(parts + [p], sep) == Join(parts, sep) + sep + p
  {
    if |parts| > 1 {
      assert (parts + [p])[1..] == parts[1..] + [p];
      JoinSnoc(parts[1..], p, sep);
    }
  }

  /** The frame signature: class labels joined with ", ". */
  function Signature(ds: seq<Detection>): (r: string)
    ensures ds == [] ==> r == ""
    ensures |ds| == 1 ==> r == ds[0].cls
    ensures ds != [] ==> ds[0].cls <= r
  {
    Join(Labels(ds), ", ")
  }

  /** A further detection extends the signature by ", " and its class. */
  lemma SignatureSnoc(ds: seq<Detection>, d: Detection)
    requires ds != []
    ensures Signature(ds + [d]) == Signature(ds) + ", " + d.cls
  {
    assert Labels(ds + [d]) == Labels(ds) + [d.cls];
    JoinSnoc(Labels(ds), d.cls, ", ");
  }

  /** Number of spoken messages in a log. */
  function SpeakCount(log: seq<Output>): nat
  {
    if log == [] then 0 else SpeakCount(log[..|log| - 1]) + (if log[|log| - 1].Speak? then 1 else 0)
  }

  /**
   * With a non-empty separator a join is empty exactly when there is nothing
   * to join or a single empty part: so the signature is "" only for an empty
   * frame or a frame whose one detection has an empty label.
   */
  lemma {:induction false} JoinEmptyIff(parts: seq<string>, sep: string)
    requires sep != ""
    ensures Join(parts, sep) == "" <==> parts == [] || (|parts| == 1 && parts[0] == "")
  {
    if |parts| > 1 {
      assert |Join(parts, sep)| >= |sep|;
    }
  }
}
