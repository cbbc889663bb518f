/**
 * Voice commands of the Smart Stick web app (the `recognition.onresult`
 * handler in smartstick-webapp/src/app.js): a final transcript is trimmed and
 * lower-cased, then the first of four keywords it contains decides the reply.
 */
module Voice {
  import opened Announcements

  /** The characters JavaScript's `String.prototype.trim` removes (white space and line terminators). */
  predicate IsJsWhitespace(c: char)
  {
    ('\U{9}' <= c <= '\U{D}') || c == ' ' || c == '\U{A0}' || c == '\U{1680}' ||
    ('\U{2000}' <= c <= '\U{200A}') || c == '\U{2028}' || c == '\U{2029}' ||
    c == '\U{202F}' || c == '\U{205F}' || c == '\U{3000}' || c == '\U{FEFF}'
  }

  /** Length of the leading run of white space. */
  function LeadingSpace(s: string): (n: nat)
    ensures n <= |s|
    ensures forall i :: 0 <= i < n ==> IsJsWhitespace(s[i])
    ensures n < |s| ==> !IsJsWhitespace(s[n])
  {
    if s != [] && IsJsWhitespace(s[0]) then 1 + LeadingSpace(s[1..]) else 0
  }

  /** Length of the trailing run of white space. */
  function TrailingSpace(s: string): (n: nat)
    ensures n <= |s|
    ensures forall i :: |s| - n <= i < |s| ==> IsJsWhitespace(s[i])
    ensures n < |s| ==> !IsJsWhitespace(s[|s| - n - 1])
  {
    if s != [] && IsJsWhitespace(s[|s| - 1]) then 1 + TrailingSpace(s[..|s| - 1]) else 0
  }

  /** `trim()`: the string without its leading and trailing white space. */
  function Trim(s: string): (r: string)
    ensures r != [] ==> !IsJsWhitespace(r[0]) && !IsJsWhitespace(r[|r| - 1])
  {
    var rest := s[LeadingSpace(s)..];
    rest[..|rest| - TrailingSpace(rest)]
  }

  /** What `Trim` cuts off is white space at the two ends, and nothing else. */
  lemma TrimIsSlice(s: string) returns (a: nat, b: nat)
    ensures a <= b <= |s| && Trim(s) == s[a..b]
    ensures forall i :: 0 <= i < a ==> IsJsWhitespace(s[i])
    ensures forall i :: b <= i < |s| ==> IsJsWhitespace(s[i])
  {
    a := LeadingSpace(s);
    var rest := s[a..];
    b := a + |rest| - TrailingSpace(rest);
    assert rest[..|rest| - TrailingSpace(rest)] == s[a..b];
    forall i | b <= i < |s| ensures IsJsWhitespace(s[i]) {
      assert s[i] == rest[i - a];
    }
  }

  /** `toLowerCase()` on one character; only A to Z are mapped. */
  function LowerChar(c: char): char
  {
    if 'A' <= c <= 'Z' then (c as int + 32) as char else c
  }

  /**
   * `toLowerCase()`: position by position, A to Z become a to z and every other
   * character, white space included, is kept.
   */
  function ToLower(s: string): (r: string)
    ensures |r| == |s| && forall i :: 0 <= i < |s| ==> r[i] == LowerChar(s[i])
    ensures forall i :: 0 <= i < |r| ==> !('A' <= r[i] <= 'Z')
    ensures forall i :: 0 <= i < |s| ==> (IsJsWhitespace(r[i]) <==> IsJsWhitespace(s[i]))
  {
    seq(|s|, i requires 0 <= i < |s| => LowerChar(s[i]))
  }

  /** Lower-casing twice is lower-casing once. */
  lemma ToLowerIdempotent(s: string)
    ensures ToLower(ToLower(s)) == ToLower(s)
  {
    var lowered := ToLower(s);
    forall i | 0 <= i < |lowered| ensures LowerChar(lowered[i]) == lowered[i] {
    }
  }

  /** `sub` occurs in `s` starting at position `i`. */
  predicate OccursAt(s: string, sub: string, i: nat)
  {
    i + |sub| <= |s| && s[i..i + |sub|] == sub
  }

  /** `includes(sub)`: tries each start position from the left. */
  function Includes(s: string, sub: string): (r: bool)
    ensures r <==> exists i: nat :: OccursAt(s, sub, i)
  {
    if |sub| > |s| then false
    else if s[..|sub|] == sub then
      assert OccursAt(s, sub, 0);
      true
    else
      var rest := Includes(s[1..], sub);
      assert forall i: nat :: OccursAt(s[1..], sub, i) <==> OccursAt(s, sub, i + 1) by {
        forall i: nat ensures OccursAt(s[1..], sub, i) <==> OccursAt(s, sub, i + 1) {
          if i + 1 + |sub| <= |s| {
            assert s[1..][i..i + |sub|] == s[i + 1..i + 1 + |sub|];
          }
        }
      }
      assert !OccursAt(s, sub, 0);
      assert (exists i: nat :: OccursAt(s, sub, i)) ==> exists i: nat :: OccursAt(s[1..], sub, i) by {
        if exists i: nat :: OccursAt(s, sub, i) {
          var i: nat :| OccursAt(s, sub, i);
          assert OccursAt(s[1..], sub, i - 1);
        }
      }
      rest
  }

  /** The four keywords, in the order they are tried. */
  const ScanLeft: string := "scan left"
  const ScanRight: string := "scan right"
  const GoForward: string := "go forward"
  const Help: string := "help"

  /**
   * The reply to an already normalised command: the first keyword it contains
   * wins. A reply, when there is one, opens with one of the four voice
   * responses; only "help" adds the vibration and the siren.
   */
  function Dispatch(command: string): (r: seq<Output>)
    ensures |r| <= 3
    ensures r != [] ==> r[0].Speak? && r[0].msg in {ScanningLeft, ScanningRight, MovingForward, EmergencyHelp}
    ensures |r| > 1 ==> r[0] == Speak(EmergencyHelp)
  {
    if Includes(command, ScanLeft) then [Speak(ScanningLeft)]
    else if Includes(command, ScanRight) then [Speak(ScanningRight)]
    else if Includes(command, GoForward) then [Speak(MovingForward)]
    else if Includes(command, Help) then [Speak(EmergencyHelp), Vibrate(StrongPattern), Siren]
    else []
  }

  /**
   * The reply to a final transcript. Trimming never changes it: every keyword
   * begins and ends with a letter, so the reply is that of the lower-cased
   * transcript as it came.
   */
  function Respond(transcript: string): (r: seq<Output>)
    ensures r == Dispatch(ToLower(transcript))
  {
    TrimKeepsKeywords(transcript);
    Dispatch(ToLower(Trim(transcript)))
  }

  /**
   * Cutting white space off the ends of a string does not change whether it
   * contains a word that neither begins nor ends with white space.
   */
  lemma SliceIncludes(u: string, a: nat, b: nat, k: string)
    requires a <= b <= |u|
    requires forall i :: 0 <= i < a ==> IsJsWhitespace(u[i])
    requires forall i :: b <= i < |u| ==> IsJsWhitespace(u[i])
    requires k != [] && !IsJsWhitespace(k[0]) && !IsJsWhitespace(k[|k| - 1])
    ensures (exists i: nat :: OccursAt(u[a..b], k, i)) <==> (exists i: nat :: OccursAt(u, k, i))
  {
    var v := u[a..b];
    if exists i: nat :: OccursAt(u, k, i) {
      var i: nat :| OccursAt(u, k, i);
      OccurrenceInsideSlice(u, a, b, k, i);
    }
    if exists i: nat :: OccursAt(v, k, i) {
      var i: nat :| OccursAt(v, k, i);
      var inner, outer := v[i..i + |k|], u[a + i..a + i + |k|];
      assert forall t :: 0 <= t < |k| ==> inner[t] == outer[t];
      assert OccursAt(u, k, a + i);
    }
  }

  /** The same fact for `Includes`. */
  lemma IncludesInSlice(u: string, a: nat, b: nat, k: string)
    requires a <= b <= |u|
    requires forall i :: 0 <= i < a ==> IsJsWhitespace(u[i])
    requires forall i :: b <= i < |u| ==> IsJsWhitespace(u[i])
    requires k != [] && !IsJsWhitespace(k[0]) && !IsJsWhitespace(k[|k| - 1])
    ensures Includes(u[a..b], k) == Includes(u, k)
  {
    SliceIncludes(u, a, b, k);
  }

  /** An occurrence of such a word lies between the white-space margins. */
  lemma OccurrenceInsideSlice(u: string, a: nat, b: nat, k: string, i: nat)
    requires a <= b <= |u|
    requires forall i :: 0 <= i < a ==> IsJsWhitespace(u[i])
    requires forall i :: b <= i < |u| ==> IsJsWhitespace(u[i])
    requires k != [] && !IsJsWhitespace(k[0]) && !IsJsWhitespace(k[|k| - 1])
    requires OccursAt(u, k, i)
    ensures a <= i && i + |k| <= b && OccursAt(u[a..b], k, i - a)
  {
    var j := i + |k| - 1;
    assert u[i] == k[0] by {
      assert u[i..i + |k|][0] == u[i];
    }
    assert u[j] == k[|k| - 1] by {
      assert u[i..i + |k|][|k| - 1] == u[j];
    }
    assert !IsJsWhitespace(u[i]) && !IsJsWhitespace(u[j]);
    assert a <= i;
    assert j < b;
    var v := u[a..b];
    var inner, outer := v[i - a..i - a + |k|], u[i..i + |k|];
    assert forall t :: 0 <= t < |k| ==> inner[t] == outer[t];
    assert inner == outer;
  }

  /** Trimming does not change which keywords the lower-cased transcript contains. */
  lemma TrimKeepsKeywords(transcript: string)
    ensures Includes(ToLower(Trim(transcript)), ScanLeft) == Includes(ToLower(transcript), ScanLeft)
    ensures Includes(ToLower(Trim(transcript)), ScanRight) == Includes(ToLower(transcript), ScanRight)
    ensures Includes(ToLower(Trim(transcript)), GoForward) == Includes(ToLower(transcript), GoForward)
    ensures Includes(ToLower(Trim(transcript)), Help) == Includes(ToLower(transcript), Help)
  {
    var a, b := TrimIsSlice(transcript);
    var u := ToLower(transcript);
    assert ToLower(Trim(transcript)) == u[a..b];
    assert forall i :: 0 <= i < a ==> IsJsWhitespace(u[i]);
    assert forall i :: b <= i < |u| ==> IsJsWhitespace(u[i]);
    IncludesInSlice(u, a, b, ScanLeft);
    IncludesInSlice(u, a, b, ScanRight);
    IncludesInSlice(u, a, b, GoForward);
    IncludesInSlice(u, a, b, Help);
  }

  /**
   * Keyword precedence: at most one reply is spoken; nothing happens when no
   * keyword occurs; "scan left" wins over everything else; and the strong
   * vibration with the siren comes only from "help" with no earlier keyword.
   */
  lemma DispatchPrecedence(command: string)
    ensures SpeakCount(Dispatch(command)) <= 1
    ensures Dispatch(command) == [] <==>
              !Includes(command, ScanLeft) && !Includes(command, ScanRight) &&
              !Includes(command, GoForward) && !Includes(command, Help)
    ensures Includes(command, ScanLeft) ==> Dispatch(command) == [Speak(ScanningLeft)]
    ensures !Includes(command, ScanLeft) && Includes(command, ScanRight) ==>
              Dispatch(command) == [Speak(ScanningRight)]
    ensures !Includes(command, ScanLeft) && !Includes(command, ScanRight) && Includes(command, GoForward) ==>
              Dispatch(command) == [Speak(MovingForward)]
    ensures !Includes(command, ScanLeft) && !Includes(command, ScanRight) && !Includes(command, GoForward) &&
            Includes(command, Help) ==>
              Dispatch(command) == [Speak(EmergencyHelp), Vibrate(StrongPattern), Siren]
    ensures Vibrate(StrongPattern) in Dispatch(command) <==>
              Includes(command, Help) && !Includes(command, ScanLeft) &&
              !Includes(command, ScanRight) && !Includes(command, GoForward)
  {
    var out := Dispatch(command);
    if |out| == 3 {
      assert out[..2][..1] == [Speak(EmergencyHelp)];
      assert SpeakCount([Speak(EmergencyHelp)]) == 1;
      assert out[..2] == [Speak(EmergencyHelp), Vibrate(StrongPattern)];
      assert SpeakCount(out[..2]) == 1;
    } else if |out| == 1 {
      assert out[..0] == [];
    }
  }

  /** Upper case in a transcript does not matter: "HELP" and "help" get the same reply. */
  lemma CaseInsensitive(transcript: string)
    ensures Respond(transcript) == Respond(ToLower(transcript))
  {
    ToLowerIdempotent(transcript);
  }
}
