/** `VehicleDetector`: the post-filter around the object-detection model. The
    model itself is opaque; what it returned for a frame is an input here. */
module Detector {
  import opened Wrappers
  import opened Builtins

  /** A kept detection `(label, x1, y1, x2, y2)`. */
  datatype Detection = Detection(className: string, x1: int, y1: int, x2: int, y2: int)

  /** The model's class-name table: a dict from id to name, or a list. */
  datatype Names = NameMap(m: map<int, string>) | NameList(s: seq<string>)

  /** One box as the model reports it: the `cls` tensor, the `xyxy` tensor (one
      row of corners expected), and `faulty` for a value `int()` rejects
      (NaN or infinity), which reals cannot express. */
  datatype RawBox = RawBox(cls: seq<real>, xyxy: seq<seq<real>>, faulty: bool)

  /** One per-image result; `boxes` is None when the result has no `boxes`
      attribute, which `getattr(r, 'boxes', [])` reads as no boxes. */
  datatype YoloResult = YoloResult(boxes: Option<seq<RawBox>>)

  /** What calling the model returned: None when the call raised. */
  type Inference = Option<seq<YoloResult>>

  /** The classes kept, compared in lower case. */
  const AllowedClasses: seq<string> := ["car", "truck", "bus"]

  /** The class name for an id: a dict answers `str(id)` for an unknown id;
      a list is indexed Python-style and raises (None) out of range. */
  function LookupName(names: Names, id: int): (r: Option<string>)
    ensures names.NameMap? ==> r == Some(if id in names.m then names.m[id] else IntToString(id))
    ensures names.NameList? ==> (r.Some? <==> IndexInRange(id, |names.s|))
    ensures names.NameList? && r.Some? ==> r.value == names.s[NormalIndex(id, |names.s|)]
  {
    match names
    case NameMap(m) => Some(if id in m then m[id] else IntToString(id))
    case NameList(s) => if IndexInRange(id, |s|) then Some(s[NormalIndex(id, |s|)]) else None
  }

  /** The body of the `try` for one box: Some(detection) when the box is kept;
      None when it is filtered out or when one of its steps raises (and the
      `except` continues with the next box). */
  function ProcessBox(names: Names, b: RawBox): Option<Detection>
  {
    if b.faulty || |b.cls| == 0 then None
    else
      match LookupName(names, Trunc(b.cls[0]))
      case None => None
      case Some(name) =>
        if Lower(name) !in AllowedClasses then None
        else if |b.xyxy| == 0 || |b.xyxy[0]| != 4 then None
        else
          var c := b.xyxy[0];
          Some(Detection(name, Trunc(c[0]), Trunc(c[1]), Trunc(c[2]), Trunc(c[3])))
  }

  /** All boxes of all results, in iteration order. */
  function AllBoxes(results: seq<YoloResult>): seq<RawBox>
    decreases |results|
  {
    if results == [] then []
    else AllBoxes(results[..|results| - 1]) + results[|results| - 1].boxes.GetOr([])
  }

  lemma AllBoxesSnoc(results: seq<YoloResult>, i: nat)
    requires i < |results|
    ensures AllBoxes(results[..i + 1]) == AllBoxes(results[..i]) + results[i].boxes.GetOr([])
  {
    assert results[..i + 1][..i] == results[..i];
  }

  /** The detections kept from `boxes`, in order. */
  function Kept(names: Names, boxes: seq<RawBox>): seq<Detection>
    decreases |boxes|
  {
    if boxes == [] then []
    else
      var last := boxes[|boxes| - 1];
      Kept(names, boxes[..|boxes| - 1]) + Yield(ProcessBox(names, last))
  }

  function Yield(kept: Option<Detection>): seq<Detection>
  {
    match kept
    case Some(d) => [d]
    case None => []
  }

  /** One more box adds its own outcome at the end. */
  lemma KeptSnoc(names: Names, boxes: seq<RawBox>, b: RawBox)
    ensures Kept(names, boxes + [b]) == Kept(names, boxes) + Yield(ProcessBox(names, b))
  {
    assert (boxes + [b])[..|boxes|] == boxes;
  }

  /** What `detect` returns for a given model outcome. */
  function Detections(names: Names, inference: Inference): seq<Detection>
  {
    match inference
    case None => []
    case Some(results) => Kept(names, AllBoxes(results))
  }

  /** The loaded model's post-filter. `names` is the model's class table. */
  class VehicleDetector {
    const names: Names
    const allowedClasses: seq<string>

    constructor (names: Names)
      ensures this.names == names && allowedClasses == AllowedClasses
    {
      this.names := names;
      allowedClasses := AllowedClasses;
    }

    /** `detect(frame)`, given what the model returned for the frame. */
    method Detect(inference: Inference) returns (detections: seq<Detection>)
      requires allowedClasses == AllowedClasses
      ensures detections == Detections(names, inference)
      ensures forall i :: 0 <= i < |detections| ==> Lower(detections[i].className) in allowedClasses
    {
      detections := [];
      if inference.None? {
        return;
      }
      var results := inference.value;
      for i := 0 to |results|
        invariant detections == Kept(names, AllBoxes(results[..i]))
      {
        var found := KeepBoxes(results[i].boxes.GetOr([]));
        AllBoxesSnoc(results, i);
        KeptAppend(names, AllBoxes(results[..i]), results[i].boxes.GetOr([]));
        detections := detections + found;
      }
      assert results[..|results|] == results;
      KeptAllowed(names, AllBoxes(results));
    }

    /** The inner loop of `detect`, over the boxes of one result: each box
        either appends its detection or is skipped. */
    method KeepBoxes(boxes: seq<RawBox>) returns (found: seq<Detection>)
      requires allowedClasses == AllowedClasses
      ensures found == Kept(names, boxes)
    {
      found := [];
      for j := 0 to |boxes|
        invariant found == Kept(names, boxes[..j])
      {
        var box := boxes[j];
        assert boxes[..j + 1] == boxes[..j] + [box];
        KeptSnoc(names, boxes[..j], box);
        var kept := ProcessBox(names, box);
        if kept.Some? {
          found := found + [kept.value];
        }
      }
      assert boxes[..|boxes|] == boxes;
    }
  }

  // -----------------------------------------------------------------------
  // Properties of the post-filter

  /** Every kept label, lower-cased, is one of car, truck or bus. */
  lemma {:induction false} KeptAllowed(names: Names, boxes: seq<RawBox>)
    ensures forall i :: 0 <= i < |Kept(names, boxes)| ==> Lower(Kept(names, boxes)[i].className) in AllowedClasses
    decreases |boxes|
  {
    if boxes != [] {
      KeptAllowed(names, boxes[..|boxes| - 1]);
    }
  }

  /** Filtering works box by box: the detections of a concatenation are the
      detections of each part, in order. */
  lemma {:induction false} KeptAppend(names: Names, a: seq<RawBox>, b: seq<RawBox>)
    ensures Kept(names, a + b) == Kept(names, a) + Kept(names, b)
    decreases |b|
  {
    if b == [] {
      assert a + b == a;
    } else {
      var n := |b| - 1;
      assert (a + b)[..|a + b| - 1] == a + b[..n];
      KeptAppend(names, a, b[..n]);
    }
  }

  /** A box that is skipped (filtered, or raising) leaves every other box's
      outcome as it was. */
  lemma SkippedBoxInvisible(names: Names, a: seq<RawBox>, b: RawBox, c: seq<RawBox>)
    requires ProcessBox(names, b) == None
    ensures Kept(names, a + [b] + c) == Kept(names, a + c)
  {
    KeptSnoc(names, a, b);
    KeptAppend(names, a + [b], c);
    KeptAppend(names, a, c);
  }

  /** `d` is what box `b` yields when kept: the class name the table gives
      for `b`'s id, unchanged in case, and `b`'s corners truncated toward zero. */
  predicate ComesFrom(names: Names, b: RawBox, d: Detection)
  {
    && !b.faulty && |b.cls| > 0 && |b.xyxy| > 0 && |b.xyxy[0]| == 4
    && LookupName(names, Trunc(b.cls[0])) == Some(d.className)
    && d.x1 == Trunc(b.xyxy[0][0]) && d.y1 == Trunc(b.xyxy[0][1])
    && d.x2 == Trunc(b.xyxy[0][2]) && d.y2 == Trunc(b.xyxy[0][3])
  }

  /** The converse of KeptAllowed and KeptOrigin: a box that converts,
      whose name lower-cases to an allowed class, is kept as that detection. */
  lemma AllowedBoxKept(names: Names, b: RawBox, d: Detection)
    requires ComesFrom(names, b, d) && Lower(d.className) in AllowedClasses
    ensures ProcessBox(names, b) == Some(d)
  {
  }

  /** Never more detections than boxes, and each detection comes from one of
      the boxes. */
  lemma {:induction false} KeptOrigin(names: Names, boxes: seq<RawBox>)
    ensures |Kept(names, boxes)| <= |boxes|
    ensures forall d :: d in Kept(names, boxes) ==> exists b :: b in boxes && ComesFrom(names, b, d)
    decreases |boxes|
  {
    if boxes != [] {
      var front := boxes[..|boxes| - 1];
      KeptOrigin(names, front);
      forall d | d in Kept(names, boxes)
        ensures exists b :: b in boxes && ComesFrom(names, b, d)
      {
        if d in Kept(names, front) {
          var b :| b in front && ComesFrom(names, b, d);
          assert b in boxes;
        } else {
          assert boxes[|boxes| - 1] in boxes;
        }
      }
    }
  }

  /** A failed model call yields no detections at all. */
  lemma InferenceFailureYieldsNothing(names: Names)
    ensures Detections(names, None) == []
  {
  }

  /** With a dict table, an id the table does not know is named by its
      decimal digits, which is never an allowed class: such a box is dropped. */
  lemma UnknownDictIdDropped(m: map<int, string>, b: RawBox)
    requires |b.cls| > 0 && Trunc(b.cls[0]) !in m
    ensures ProcessBox(NameMap(m), b) == None
  {
    var s := IntToString(Trunc(b.cls[0]));
    var low := Lower(s);
    assert low[0] == s[0] || |s| == 0;
    assert low[0] != 'c' && low[0] != 't' && low[0] != 'b';
    assert low != "car" && low != "truck" && low != "bus";
  }

  /** Case only matters for the comparison: an upper-case model name is kept
      and reported exactly as the model spells it. */
  lemma UpperCaseNameKept()
    ensures ProcessBox(NameList(["Car"]), RawBox([0.0], [[1.5, 2.0, 30.9, -4.7]], false))
      == Some(Detection("Car", 1, 2, 30, -4))
  {
    assert Lower("Car") == "car";
  }
}
