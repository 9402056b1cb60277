/** `annotate_and_alert`: for every detection, draw its box and its distance
    label on the frame, in red with a "COLLISION RISK" text when it is closer
    than the warning distance, and schedule one beep per such detection. */
module Annotate {
  import opened Wrappers
  import opened Seqs
  import opened Frames
  import opened Distance
  import opened Detector

  /** An OpenCV colour, in blue-green-red order. */
  datatype Color = Bgr(b: int, g: int, r: int)

  const Green: Color := Bgr(0, 255, 0)
  const Red: Color := Bgr(0, 0, 255)

  datatype Point = Point(x: int, y: int)

  /** The text of a `putText` call. The distance label is the formatted string
      `"{label} {distance:.1f}m"`; its formatting is kept abstract. */
  datatype Caption = Literal(text: string) | DistanceLabel(className: string, distance: Dist)

  const RiskText: string := "COLLISION RISK"

  /** One drawing call on the frame; both kinds are drawn with thickness 2. */
  datatype Draw =
    | Rectangle(p1: Point, p2: Point, color: Color, thickness: int)
    | PutText(caption: Caption, origin: Point, scale: real, color: Color, thickness: int)

  /** The distance estimated for a detection, from its box height. */
  function BoxDistance(d: Detection, frameHeight: real): Dist
  {
    EstimateDistance(Some((d.y2 - d.y1) as real), frameHeight)
  }

  /** `distance < WARNING_DISTANCE_METERS` for this detection. */
  predicate AtRisk(d: Detection, frameHeight: real, warn: real)
  {
    Below(BoxDistance(d, frameHeight), warn)
  }

  /** The same test as a value, for filtering. */
  function RiskTest(frameHeight: real, warn: real): Detection -> bool
  {
    d => AtRisk(d, frameHeight, warn)
  }

  /** The detections that raise an alert, in order. */
  function Risky(dets: seq<Detection>, frameHeight: real, warn: real): seq<Detection>
  {
    Filter(RiskTest(frameHeight, warn), dets)
  }

  function ColorFor(d: Detection, frameHeight: real, warn: real): (c: Color)
    ensures c == Red <==> AtRisk(d, frameHeight, warn)
    ensures c == Green <==> !AtRisk(d, frameHeight, warn)
  {
    if AtRisk(d, frameHeight, warn) then Red else Green
  }

  function RiskTextFor(d: Detection): Draw
  {
    PutText(Literal(RiskText), Point(d.x1, d.y1 - 10), 0.7, Red, 2)
  }

  function RectangleFor(d: Detection, frameHeight: real, warn: real): Draw
  {
    Rectangle(Point(d.x1, d.y1), Point(d.x2, d.y2), ColorFor(d, frameHeight, warn), 2)
  }

  function LabelFor(d: Detection, frameHeight: real, warn: real): Draw
  {
    PutText(DistanceLabel(d.className, BoxDistance(d, frameHeight)), Point(d.x1, d.y2 + 20),
      0.6, ColorFor(d, frameHeight, warn), 2)
  }

  /** The calls one detection makes, in the order they are made. */
  function DrawsFor(d: Detection, frameHeight: real, warn: real): seq<Draw>
  {
    (if AtRisk(d, frameHeight, warn) then [RiskTextFor(d)] else [])
    + [RectangleFor(d, frameHeight, warn), LabelFor(d, frameHeight, warn)]
  }

  /** All calls made for `dets`, in order. */
  function Annotations(dets: seq<Detection>, frameHeight: real, warn: real): seq<Draw>
    decreases |dets|
  {
    if dets == [] then []
    else Annotations(dets[..|dets| - 1], frameHeight, warn) + DrawsFor(dets[|dets| - 1], frameHeight, warn)
  }

  lemma AnnotationsSnoc(dets: seq<Detection>, d: Detection, frameHeight: real, warn: real)
    ensures Annotations(dets + [d], frameHeight, warn)
      == Annotations(dets, frameHeight, warn) + DrawsFor(d, frameHeight, warn)
  {
    assert (dets + [d])[..|dets|] == dets;
  }

  lemma RiskySnoc(dets: seq<Detection>, d: Detection, frameHeight: real, warn: real)
    ensures |Risky(dets + [d], frameHeight, warn)|
      == |Risky(dets, frameHeight, warn)| + (if AtRisk(d, frameHeight, warn) then 1 else 0)
  {
    var p := RiskTest(frameHeight, warn);
    FilterAppend(p, dets, [d]);
    assert Filter(p, [d]) == (if p(d) then [d] else []) + Filter(p, []);
  }

  /** One more detection of the list adds its draws and its risk. */
  lemma PrefixStep(dets: seq<Detection>, i: nat, frameHeight: real, warn: real)
    requires i < |dets|
    ensures Annotations(dets[..i + 1], frameHeight, warn)
      == Annotations(dets[..i], frameHeight, warn) + DrawsFor(dets[i], frameHeight, warn)
    ensures |Risky(dets[..i + 1], frameHeight, warn)|
      == |Risky(dets[..i], frameHeight, warn)| + (if AtRisk(dets[i], frameHeight, warn) then 1 else 0)
  {
    assert dets[..i + 1] == dets[..i] + [dets[i]];
    AnnotationsSnoc(dets[..i], dets[i], frameHeight, warn);
    RiskySnoc(dets[..i], dets[i], frameHeight, warn);
  }

  // -----------------------------------------------------------------------
  // The frame and the alert threads

  /** A frame being annotated: the image and the drawing calls made on it. */
  class Canvas {
    const image: Image
    var drawn: seq<Draw>

    constructor (image: Image)
      ensures this.image == image && drawn == []
    {
      this.image := image;
      drawn := [];
    }

    /** `frame.shape[0]`. */
    function Height(): nat
    {
      image.rows
    }

    /** `cv2.rectangle` / `cv2.putText` on this frame. */
    method Apply(c: Draw)
      modifies this
      ensures drawn == old(drawn) + [c]
    {
      drawn := drawn + [c];
    }
  }

  /** The beeps started so far; each `threading.Thread(target=_beep)` adds one. */
  class AlertSink {
    var scheduled: nat

    constructor ()
      ensures scheduled == 0
    {
      scheduled := 0;
    }

    method Beep()
      modifies this
      ensures scheduled == old(scheduled) + 1
    {
      scheduled := scheduled + 1;
    }
  }

  /** The body of the loop of `annotate_and_alert` for one detection. */
  method AnnotateOne(frame: Canvas, d: Detection, beep: bool, warn: real, alerts: AlertSink)
    modifies frame, alerts
    ensures frame.drawn == old(frame.drawn) + DrawsFor(d, frame.image.rows as real, warn)
    ensures alerts.scheduled
      == old(alerts.scheduled) + (if beep && AtRisk(d, frame.image.rows as real, warn) then 1 else 0)
  {
    var distance := EstimateDistance(Some((d.y2 - d.y1) as real), frame.Height() as real);
    var color := Green;
    if Below(distance, warn) {
      color := Red;
      frame.Apply(PutText(Literal(RiskText), Point(d.x1, d.y1 - 10), 0.7, color, 2));
      if beep {
        alerts.Beep();
      }
    }
    frame.Apply(Rectangle(Point(d.x1, d.y1), Point(d.x2, d.y2), color, 2));
    frame.Apply(PutText(DistanceLabel(d.className, distance), Point(d.x1, d.y2 + 20), 0.6, color, 2));
  }

  /** `annotate_and_alert(frame, detections, beep)` with the warning distance
      `warn`: the frame receives exactly `Annotations(...)`, and one beep is
      scheduled per risky detection when beeping is on. */
  method AnnotateAndAlert(frame: Canvas, detections: seq<Detection>, beep: bool, warn: real, alerts: AlertSink)
    modifies frame, alerts
    ensures frame.drawn == old(frame.drawn) + Annotations(detections, frame.image.rows as real, warn)
    ensures alerts.scheduled
      == old(alerts.scheduled) + (if beep then |Risky(detections, frame.image.rows as real, warn)| else 0)
  {
    var height := frame.Height() as real;
    for i := 0 to |detections|
      invariant frame.drawn == old(frame.drawn) + Annotations(detections[..i], height, warn)
      invariant alerts.scheduled
        == old(alerts.scheduled) + (if beep then |Risky(detections[..i], height, warn)| else 0)
    {
      var d := detections[i];
      PrefixStep(detections, i, height, warn);
      AppendAssoc(old(frame.drawn), Annotations(detections[..i], height, warn), DrawsFor(d, height, warn));
      AnnotateOne(frame, d, beep, warn, alerts);
    }
    assert detections[..|detections|] == detections;
  }

  // -----------------------------------------------------------------------
  // Properties of the drawing calls

  predicate IsRectangle(c: Draw)
  {
    c.Rectangle?
  }

  predicate IsDistanceLabel(c: Draw)
  {
    c.PutText? && c.caption.DistanceLabel?
  }

  predicate IsRiskText(c: Draw)
  {
    c.PutText? && c.caption == Literal(RiskText)
  }

  /** What each kind of call contributes for one detection. */
  lemma DrawsForKinds(d: Detection, frameHeight: real, warn: real)
    ensures Filter(IsRectangle, DrawsFor(d, frameHeight, warn)) == [RectangleFor(d, frameHeight, warn)]
    ensures Filter(IsDistanceLabel, DrawsFor(d, frameHeight, warn)) == [LabelFor(d, frameHeight, warn)]
    ensures Filter(IsRiskText, DrawsFor(d, frameHeight, warn))
      == if AtRisk(d, frameHeight, warn) then [RiskTextFor(d)] else []
  {
    var tail := [RectangleFor(d, frameHeight, warn), LabelFor(d, frameHeight, warn)];
    var risk := if AtRisk(d, frameHeight, warn) then [RiskTextFor(d)] else [];
    FilterAppend(IsRectangle, risk, tail);
    FilterAppend(IsDistanceLabel, risk, tail);
    FilterAppend(IsRiskText, risk, tail);
    assert tail[1..][1..] == [];
  }

  /** `c` is the rectangle drawn for `d`: its corners, thickness 2, red when
      `d` is at risk and green otherwise. */
  predicate IsRectangleOf(c: Draw, d: Detection, frameHeight: real, warn: real)
  {
    && c.Rectangle?
    && c.p1 == Point(d.x1, d.y1) && c.p2 == Point(d.x2, d.y2) && c.thickness == 2
    && (c.color == Red <==> AtRisk(d, frameHeight, warn))
    && (c.color == Green <==> !AtRisk(d, frameHeight, warn))
  }

  /** `c` is the distance label drawn for `d`: its class name and estimated
      distance, just below its box, at scale 0.6 and thickness 2, red when `d`
      is at risk and green otherwise. */
  predicate IsLabelOf(c: Draw, d: Detection, frameHeight: real, warn: real)
  {
    && c.PutText?
    && c.caption == DistanceLabel(d.className, BoxDistance(d, frameHeight))
    && c.origin == Point(d.x1, d.y2 + 20)
    && c.scale == 0.6 && c.thickness == 2
    && (c.color == Red <==> AtRisk(d, frameHeight, warn))
    && (c.color == Green <==> !AtRisk(d, frameHeight, warn))
  }

  lemma RectanglesSnoc(front: seq<Detection>, d: Detection, frameHeight: real, warn: real)
    ensures Filter(IsRectangle, Annotations(front + [d], frameHeight, warn))
      == Filter(IsRectangle, Annotations(front, frameHeight, warn)) + [RectangleFor(d, frameHeight, warn)]
  {
    AnnotationsSnoc(front, d, frameHeight, warn);
    FilterAppend(IsRectangle, Annotations(front, frameHeight, warn), DrawsFor(d, frameHeight, warn));
    DrawsForKinds(d, frameHeight, warn);
  }

  lemma LabelsSnoc(front: seq<Detection>, d: Detection, frameHeight: real, warn: real)
    ensures Filter(IsDistanceLabel, Annotations(front + [d], frameHeight, warn))
      == Filter(IsDistanceLabel, Annotations(front, frameHeight, warn)) + [LabelFor(d, frameHeight, warn)]
  {
    AnnotationsSnoc(front, d, frameHeight, warn);
    FilterAppend(IsDistanceLabel, Annotations(front, frameHeight, warn), DrawsFor(d, frameHeight, warn));
    DrawsForKinds(d, frameHeight, warn);
  }

  lemma RiskTextsSnoc(front: seq<Detection>, d: Detection, frameHeight: real, warn: real)
    ensures Filter(IsRiskText, Annotations(front + [d], frameHeight, warn))
      == Filter(IsRiskText, Annotations(front, frameHeight, warn))
         + (if AtRisk(d, frameHeight, warn) then [RiskTextFor(d)] else [])
  {
    AnnotationsSnoc(front, d, frameHeight, warn);
    FilterAppend(IsRiskText, Annotations(front, frameHeight, warn), DrawsFor(d, frameHeight, warn));
    DrawsForKinds(d, frameHeight, warn);
  }

  lemma RiskyAppend(front: seq<Detection>, d: Detection, frameHeight: real, warn: real)
    ensures Risky(front + [d], frameHeight, warn)
      == Risky(front, frameHeight, warn) + (if AtRisk(d, frameHeight, warn) then [d] else [])
  {
    var p := RiskTest(frameHeight, warn);
    FilterAppend(p, front, [d]);
    assert Filter(p, [d]) == (if p(d) then [d] else []) + Filter(p, []);
  }

  /** Exactly one rectangle per detection, in detection order, spanning the
      detection's corners, red when the detection is at risk and green otherwise. */
  lemma {:induction false} OneRectanglePerDetection(dets: seq<Detection>, frameHeight: real, warn: real)
    ensures |Filter(IsRectangle, Annotations(dets, frameHeight, warn))| == |dets|
    ensures forall i :: 0 <= i < |dets| ==>
      IsRectangleOf(Filter(IsRectangle, Annotations(dets, frameHeight, warn))[i], dets[i], frameHeight, warn)
    decreases |dets|
  {
    if dets != [] {
      var front, d := dets[..|dets| - 1], dets[|dets| - 1];
      OneRectanglePerDetection(front, frameHeight, warn);
      assert dets == front + [d];
      RectanglesSnoc(front, d, frameHeight, warn);
      var rs0 := Filter(IsRectangle, Annotations(front, frameHeight, warn));
      var rs := Filter(IsRectangle, Annotations(dets, frameHeight, warn));
      assert rs == rs0 + [RectangleFor(d, frameHeight, warn)];
      forall i | 0 <= i < |dets|
        ensures IsRectangleOf(rs[i], dets[i], frameHeight, warn)
      {
        if i < |front| {
          assert rs[i] == rs0[i] && dets[i] == front[i];
        } else {
          assert rs[i] == RectangleFor(d, frameHeight, warn);
        }
      }
    }
  }

  /** Exactly one distance label per detection, in detection order, naming the
      detection's class and its estimated distance just below its box. */
  lemma {:induction false} OneLabelPerDetection(dets: seq<Detection>, frameHeight: real, warn: real)
    ensures |Filter(IsDistanceLabel, Annotations(dets, frameHeight, warn))| == |dets|
    ensures forall i :: 0 <= i < |dets| ==>
      IsLabelOf(Filter(IsDistanceLabel, Annotations(dets, frameHeight, warn))[i], dets[i], frameHeight, warn)
    decreases |dets|
  {
    if dets != [] {
      var front, d := dets[..|dets| - 1], dets[|dets| - 1];
      OneLabelPerDetection(front, frameHeight, warn);
      assert dets == front + [d];
      LabelsSnoc(front, d, frameHeight, warn);
      var ls0 := Filter(IsDistanceLabel, Annotations(front, frameHeight, warn));
      var ls := Filter(IsDistanceLabel, Annotations(dets, frameHeight, warn));
      assert ls == ls0 + [LabelFor(d, frameHeight, warn)];
      forall i | 0 <= i < |dets|
        ensures IsLabelOf(ls[i], dets[i], frameHeight, warn)
      {
        if i < |front| {
          assert ls[i] == ls0[i] && dets[i] == front[i];
        } else {
          assert ls[i] == LabelFor(d, frameHeight, warn);
        }
      }
    }
  }

  /** The "COLLISION RISK" texts are exactly one per risky detection, in
      order, each just above its box; their number is the number of beeps. */
  lemma {:induction false} RiskTextPerRiskyDetection(dets: seq<Detection>, frameHeight: real, warn: real)
    ensures |Filter(IsRiskText, Annotations(dets, frameHeight, warn))| == |Risky(dets, frameHeight, warn)|
    ensures forall k :: 0 <= k < |Risky(dets, frameHeight, warn)| ==>
      Filter(IsRiskText, Annotations(dets, frameHeight, warn))[k] == RiskTextFor(Risky(dets, frameHeight, warn)[k])
    decreases |dets|
  {
    if dets != [] {
      var front, d := dets[..|dets| - 1], dets[|dets| - 1];
      RiskTextPerRiskyDetection(front, frameHeight, warn);
      assert dets == front + [d];
      RiskTextsSnoc(front, d, frameHeight, warn);
      RiskyAppend(front, d, frameHeight, warn);
      var ts0 := Filter(IsRiskText, Annotations(front, frameHeight, warn));
      var rk0 := Risky(front, frameHeight, warn);
      var ts := Filter(IsRiskText, Annotations(dets, frameHeight, warn));
      var rk := Risky(dets, frameHeight, warn);
      if AtRisk(d, frameHeight, warn) {
        assert ts == ts0 + [RiskTextFor(d)] && rk == rk0 + [d];
        forall k | 0 <= k < |rk|
          ensures ts[k] == RiskTextFor(rk[k])
        {
          if k < |rk0| {
            assert ts[k] == ts0[k] && rk[k] == rk0[k];
          }
        }
      } else {
        assert ts == ts0 + [] && rk == rk0 + [];
      }
    }
  }

  /** Boxes at most one pixel tall are never at risk, so they neither turn red
      nor beep nor get a "COLLISION RISK" text. */
  lemma {:induction false} FlatBoxesNeverAlert(dets: seq<Detection>, frameHeight: real, warn: real)
    requires forall i :: 0 <= i < |dets| ==> dets[i].y2 - dets[i].y1 <= 1
    ensures Risky(dets, frameHeight, warn) == []
    ensures Filter(IsRiskText, Annotations(dets, frameHeight, warn)) == []
    decreases |dets|
  {
    if dets != [] {
      var front, d := dets[..|dets| - 1], dets[|dets| - 1];
      FlatBoxesNeverAlert(front, frameHeight, warn);
      SmallBoxNeverBelow(Some((d.y2 - d.y1) as real), frameHeight, warn);
      assert !AtRisk(d, frameHeight, warn);
      assert dets == front + [d];
      RiskyAppend(front, d, frameHeight, warn);
      RiskTextsSnoc(front, d, frameHeight, warn);
    }
  }

  /** A car 50 pixels tall is 24 m away: beyond a 20 m warning distance it gets
      a green box and label and no alert. */
  lemma DistantCarExample()
    ensures Annotations([Detection("car", 10, 100, 60, 150)], 640.0, 20.0)
      == [ Rectangle(Point(10, 100), Point(60, 150), Green, 2),
           PutText(DistanceLabel("car", Finite(24.0)), Point(10, 170), 0.6, Green, 2) ]
    ensures Risky([Detection("car", 10, 100, 60, 150)], 640.0, 20.0) == []
  {
    var d := Detection("car", 10, 100, 60, 150);
    assert BoxDistance(d, 640.0) == Finite(24.0);
    assert [d][..0] == [];
    RiskySnoc([], d, 640.0, 20.0);
  }

  /** A truck 100 pixels tall is 12 m away: inside a 20 m warning distance it
      gets a red box and label, a "COLLISION RISK" text first, and one alert. */
  lemma CloseTruckExample()
    ensures Annotations([Detection("truck", 0, 200, 80, 300)], 640.0, 20.0)
      == [ PutText(Literal(RiskText), Point(0, 190), 0.7, Red, 2),
           Rectangle(Point(0, 200), Point(80, 300), Red, 2),
           PutText(DistanceLabel("truck", Finite(12.0)), Point(0, 320), 0.6, Red, 2) ]
    ensures |Risky([Detection("truck", 0, 200, 80, 300)], 640.0, 20.0)| == 1
  {
    var d := Detection("truck", 0, 200, 80, 300);
    assert BoxDistance(d, 640.0) == Finite(12.0);
    assert [d][..0] == [];
    RiskySnoc([], d, 640.0, 20.0);
  }
}
