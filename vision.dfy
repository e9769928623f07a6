/** The camera check: the labels the object detector reports for a frame
    become one status line for the observer. The detector itself is not
    modelled; a frame is given as the label of every box of every result. */
module Vision {
  import opened Text

  const Unavailable := "Camera feed unavailable."
  // The messages are spelled in short pieces so that facts about their
  // single characters stay cheap for the solver.
  const PhoneAlert := "ALERT: " + "Candidate is " + "holding " + "a phone!"
  const AbsentAlert := "ALERT: " + "Candidate is " + "NOT visible."
  const DeskNote := "Note: " + "Books/Laptop " + "visible nearby."
  const AllClear := "Candidate is " + "present. " + "No suspicious " + "objects detected."
  const Separator := " | "

  /** The labels of all boxes of all results, in detection order. */
  function Flatten(results: seq<seq<string>>): seq<string> {
    if results == [] then [] else Flatten(results[..|results| - 1]) + results[|results| - 1]
  }

  /** The messages the rules fire for a label set, in the fixed order phone,
      not visible, books/laptop. */
  function Alerts(labels: set<string>): seq<string> {
    (if "cell phone" in labels then [PhoneAlert] else [])
    + (if "person" !in labels then [AbsentAlert] else [])
    + (if "book" in labels || "laptop" in labels then [DeskNote] else [])
  }

  /** The status line for a label set. */
  function FrameStatus(labels: set<string>): string {
    var a := Alerts(labels);
    if a == [] then AllClear else Join(a, Separator)
  }

  /** `VisionSystem.analyze_frame`, with the detector's output as input:
      None stands for a missing frame. */
  method AnalyzeFrame(frame: Option<seq<seq<string>>>) returns (status: string)
    ensures frame.None? ==> status == Unavailable
    ensures frame.Some? ==> status == FrameStatus(set l | l in Flatten(frame.value))
  {
    if frame.None? {
      return Unavailable;
    }
    var results := frame.value;
    var detected: seq<string> := [];
    for i := 0 to |results|
      invariant detected == Flatten(results[..i])
    {
      var boxes := results[i];
      for j := 0 to |boxes|
        invariant detected == Flatten(results[..i]) + boxes[..j]
      {
        detected := detected + [boxes[j]];
      }
      assert results[..i + 1][..i] == results[..i];
      assert boxes[..|boxes|] == boxes;
    }
    assert results[..|results|] == results;
    var unique := set l | l in detected;
    var context: seq<string> := [];
    if "cell phone" in unique {
      context := context + [PhoneAlert];
    }
    if "person" !in unique {
      context := context + [AbsentAlert];
    }
    if "book" in unique || "laptop" in unique {
      context := context + [DeskNote];
    }
    assert context == Alerts(unique);
    if context == [] {
      return AllClear;
    }
    return Join(context, Separator);
  }

  /** `c` is one of the three characters that tell the messages apart. */
  predicate Marker(c: char) {
    c == 'h' || c == 'O' || c == 'B'
  }

  /** No marker occurs in the all-clear line or in the separator. */
  lemma AllClearLacksMarkers(c: char)
    requires Marker(c)
    ensures c !in AllClear && c !in Separator
  {
  }

  /** The phone alert holds 'h' and no other marker. */
  lemma PhoneMarkers()
    ensures 'h' in PhoneAlert && 'O' !in PhoneAlert && 'B' !in PhoneAlert
  {
    assert PhoneAlert[20] == 'h';
  }

  /** The not-visible alert holds 'O' and no other marker. */
  lemma AbsentMarkers()
    ensures 'O' in AbsentAlert && 'h' !in AbsentAlert && 'B' !in AbsentAlert
  {
    assert AbsentAlert[21] == 'O';
  }

  /** The books/laptop note holds 'B' and no other marker. */
  lemma DeskMarkers()
    ensures 'B' in DeskNote && 'h' !in DeskNote && 'O' !in DeskNote
  {
    assert DeskNote[6] == 'B';
  }

  /** A character that neither the separator, nor the all-clear line, nor any
      fired message holds cannot appear in the status line, so no message
      holding it appears there. */
  lemma MissingChar(labels: set<string>, c: char, m: string)
    requires c in m && c !in Separator && c !in AllClear
    requires forall i :: 0 <= i < |Alerts(labels)| ==> c !in Alerts(labels)[i]
    ensures !Contains(FrameStatus(labels), m)
  {
    if Contains(FrameStatus(labels), m) {
      ContainsChar(FrameStatus(labels), m, c);
      if Alerts(labels) != [] {
        JoinChars(Alerts(labels), Separator, c);
      }
    }
  }

  /** A fired message appears in the status line. */
  lemma FiredAppears(labels: set<string>, i: int)
    requires 0 <= i < |Alerts(labels)|
    ensures Contains(FrameStatus(labels), Alerts(labels)[i])
  {
    JoinContainsPart(Alerts(labels), Separator, i);
  }

  /** The phone alert is in the status line exactly when a cell phone is
      detected. */
  lemma PhoneAlertIff(labels: set<string>)
    ensures Contains(FrameStatus(labels), PhoneAlert) <==> "cell phone" in labels
  {
    if "cell phone" in labels {
      FiredAppears(labels, 0);
    } else {
      PhoneMarkers();
      AbsentMarkers();
      DeskMarkers();
      AllClearLacksMarkers('h');
      MissingChar(labels, 'h', PhoneAlert);
    }
  }

  /** The not-visible alert is in the status line exactly when no person is
      detected. */
  lemma AbsentAlertIff(labels: set<string>)
    ensures Contains(FrameStatus(labels), AbsentAlert) <==> "person" !in labels
  {
    if "person" !in labels {
      FiredAppears(labels, if "cell phone" in labels then 1 else 0);
    } else {
      PhoneMarkers();
      AbsentMarkers();
      DeskMarkers();
      AllClearLacksMarkers('O');
      MissingChar(labels, 'O', AbsentAlert);
    }
  }

  /** The books/laptop note is in the status line exactly when a book or a
      laptop is detected. */
  lemma DeskNoteIff(labels: set<string>)
    ensures Contains(FrameStatus(labels), DeskNote) <==> "book" in labels || "laptop" in labels
  {
    if "book" in labels || "laptop" in labels {
      FiredAppears(labels, |Alerts(labels)| - 1);
    } else {
      PhoneMarkers();
      AbsentMarkers();
      DeskMarkers();
      AllClearLacksMarkers('B');
      MissingChar(labels, 'B', DeskNote);
    }
  }

  /** The all-clear line is returned exactly when no rule fires; otherwise
      the fired messages are joined by " | " in the fixed order. */
  lemma AllClearIff(labels: set<string>)
    ensures FrameStatus(labels) == AllClear
            <==> "cell phone" !in labels && "person" in labels && "book" !in labels && "laptop" !in labels
    ensures Alerts(labels) != [] ==> FrameStatus(labels) == Join(Alerts(labels), Separator)
  {
    var a := Alerts(labels);
    if a != [] {
      var c := if a[0] == PhoneAlert then 'h' else if a[0] == AbsentAlert then 'O' else 'B';
      PhoneMarkers();
      AbsentMarkers();
      DeskMarkers();
      AllClearLacksMarkers(c);
      FiredAppears(labels, 0);
      if FrameStatus(labels) == AllClear {
        ContainsChar(FrameStatus(labels), a[0], c);
      }
    }
  }
}
