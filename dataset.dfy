/** `FoggyVehicleDataset`: the training images of a directory together with
    their YOLO label files (one `class x y w h` line per box). */
module Dataset {
  import opened Wrappers
  import opened Seqs
  import opened Builtins
  import opened Paths
  import opened Frames

  // -----------------------------------------------------------------------
  // The image list

  /** The suffixes the image filter accepts, compared after lower-casing. */
  const ImageSuffixes: seq<string> := [".jpg", ".jpeg", ".png"]

  /** Whether a directory entry is taken as an image: its lower-cased name ends
      in one of the suffixes. Case does not matter and dotfiles are kept. */
  predicate IsImageName(f: string)
  {
    EndsWithAny(Lower(f), ImageSuffixes)
  }

  /** The `images` list: the entries of `os.listdir` that are images, in
      listing order. */
  function ImageNames(listing: seq<string>): seq<string>
  {
    Filter(IsImageName, listing)
  }

  /** Exactly the image entries of the listing are kept. */
  lemma ImageNamesMembers(listing: seq<string>, f: string)
    ensures f in ImageNames(listing) <==> f in listing && IsImageName(f)
  {
    if f in ImageNames(listing) {
      var r := ImageNames(listing);
      var i :| 0 <= i < |r| && r[i] == f;
    }
  }

  /** Filtering twice keeps the same list. */
  lemma {:induction false} ImageNamesIdempotent(listing: seq<string>)
    ensures ImageNames(ImageNames(listing)) == ImageNames(listing)
    decreases |listing|
  {
    if listing != [] {
      ImageNamesIdempotent(listing[1..]);
      FilterCons(IsImageName, listing);
      var rest := ImageNames(listing[1..]);
      if IsImageName(listing[0]) {
        var r := [listing[0]] + rest;
        assert r[1..] == rest;
        FilterCons(IsImageName, r);
      }
    }
  }

  /** Upper-case extensions and dotfiles are kept; other extensions are not. */
  lemma ImageNamesExample(stem: string)
    ensures ImageNames([stem + ".JPG", ".png", stem + ".txt"]) == [stem + ".JPG", ".png"]
  {
    UpperExtensionKept(stem);
    KeptName(".png", ".png");
    TextDropped(stem);
    FilterThree(IsImageName, stem + ".JPG", ".png", stem + ".txt");
  }

  /** An upper-case ".JPG" is an image extension. */
  lemma UpperExtensionKept(stem: string)
    ensures IsImageName(stem + ".JPG")
  {
    LowerAppend(stem, ".JPG");
    assert Lower(".JPG") == ".jpg";
    EndsWithConcat(Lower(stem), ".jpg", ".jpg");
    KeptName(stem + ".JPG", ".jpg");
  }

  lemma TextDropped(stem: string)
    ensures !IsImageName(stem + ".txt")
  {
    var c := stem + ".txt";
    assert c[|c| - 1] == 't';
    DroppedName(c, 't');
  }

  lemma FilterThree<T>(p: T -> bool, a: T, b: T, c: T)
    requires p(a) && p(b) && !p(c)
    ensures Filter(p, [a, b, c]) == [a, b]
  {
    assert [a, b, c][1..] == [b, c] && [b, c][1..] == [c] && [c][1..] == [];
    FilterCons(p, [c]);
    FilterCons(p, [b, c]);
    FilterCons(p, [a, b, c]);
  }

  lemma KeptName(f: string, e: string)
    requires e in ImageSuffixes && EndsWith(Lower(f), e)
    ensures IsImageName(f)
  {
  }

  /** A name whose lower-cased last character ends none of the suffixes. */
  lemma DroppedName(f: string, last: char)
    requires f != [] && LowerChar(f[|f| - 1]) == last
    requires last != 'g'
    ensures !IsImageName(f)
  {
    var low := Lower(f);
    assert low[|low| - 1] == last;
  }

  // -----------------------------------------------------------------------
  // The label path

  /** `splitext(join(label_dir, name))[0] + ".txt"`. */
  function LabelPath(labelDir: string, name: string): (r: string)
    ensures EndsWith(r, ".txt")
  {
    SplitExt(Join(labelDir, name)).0 + ".txt"
  }

  /** For an image `stem + ext` whose stem holds a character other than '.',
      the label path is the stem, in the label directory, with ".txt". */
  lemma LabelPathOfImage(labelDir: string, stem: string, ext: string)
    requires Lower(ext) in ImageSuffixes
    requires forall i :: 0 <= i < |stem| ==> stem[i] != '/'
    requires exists i :: 0 <= i < |stem| && stem[i] != '.'
    ensures LabelPath(labelDir, stem + ext) == Join(labelDir, stem) + ".txt"
  {
    ExtensionShape(ext);
    SplitExtOfJoin(labelDir, stem, ext);
  }

  /** An extension that lower-cases to a suffix is '.' followed by letters. */
  lemma ExtensionShape(ext: string)
    requires Lower(ext) in ImageSuffixes
    ensures ext != [] && ext[0] == '.'
    ensures forall i :: 0 < i < |ext| ==> ext[i] != '.' && ext[i] != '/'
  {
    var low := Lower(ext);
    SuffixShape(low);
    LowerDot(ext[0]);
    forall i | 0 < i < |ext| ensures ext[i] != '.' && ext[i] != '/' {
      LowerLetter(ext[i]);
    }
  }

  lemma SuffixShape(e: string)
    requires e in ImageSuffixes
    ensures e != [] && e[0] == '.'
    ensures forall i :: 0 < i < |e| ==> 'a' <= e[i] <= 'z'
  {
  }

  /** A character that lower-cases to a letter is not '.' or '/'. */
  lemma LowerLetter(c: char)
    requires 'a' <= LowerChar(c) <= 'z'
    ensures c != '.' && c != '/'
  {
  }

  lemma LowerDot(c: char)
    requires LowerChar(c) == '.'
    ensures c == '.'
  {
  }

  /** A dotfile such as ".jpg" has no extension to split off: its label file
      is ".jpg.txt". */
  lemma DotfileLabelPath()
    ensures LabelPath("labels", ".jpg") == "labels/.jpg.txt"
  {
    var d, name := "labels/", ".jpg";
    assert !EndsWith("labels", "/") by { assert "labels"[5] != '/'; }
    assert JoinPrefix("labels") == d;
    JoinRelative("labels", name);
    var p := d + name;
    LastIndexAtJoint(d, name, '/');
    LastDotStartsExt(d, name);
    assert SplitExt(p) == (p, []);
    assert p + ".txt" == "labels/.jpg.txt";
  }

  // -----------------------------------------------------------------------
  // Label lines

  /** A Python float as far as labels are concerned: a real, or an infinity or
      NaN, which `float()` accepts but `int()` rejects. */
  datatype PyFloat = Num(v: real) | NonFinite

  /** A box as read from a label line: centre, width and height. */
  datatype YoloBox = YoloBox(x: PyFloat, y: PyFloat, w: PyFloat, h: PyFloat)

  datatype DatasetError =
    | IndexOutOfRange            // `self.images[idx]` raises IndexError
    | ImageUnreadable            // `imread` gave None and `cvtColor` raises
    | BadNumber(token: string)   // `float(token)` raises ValueError
    | NonFiniteClass             // `int(cls)` of an infinity or NaN raises

  /** `cls, x, y, w, h = map(float, parts[:5])` followed by `int(cls)`: the
      first token `float` rejects is the error; then a non-finite class is. */
  function ParseFields(toFloat: string -> Option<PyFloat>, t: seq<string>): (r: Result<(YoloBox, int), DatasetError>)
    requires |t| == 5
    ensures r.Ok? <==> (forall j :: 0 <= j < 5 ==> toFloat(t[j]).Some?) && toFloat(t[0]).value.Num?
    ensures r.Ok? ==> r.value.1 == Trunc(toFloat(t[0]).value.v)
    ensures r.Ok? ==> r.value.0 == YoloBox(toFloat(t[1]).value, toFloat(t[2]).value, toFloat(t[3]).value, toFloat(t[4]).value)
    ensures r.Err? && r.error.BadNumber? ==>
      exists j :: 0 <= j < 5 && r.error == BadNumber(t[j]) && toFloat(t[j]).None?
        && forall i :: 0 <= i < j ==> toFloat(t[i]).Some?
    ensures (exists j :: 0 <= j < 5 && toFloat(t[j]).None?) ==> r.Err? && r.error.BadNumber?
    ensures r.Err? && !r.error.BadNumber? ==> r.error == NonFiniteClass
  {
    if toFloat(t[0]).None? then Err(BadNumber(t[0]))
    else if toFloat(t[1]).None? then Err(BadNumber(t[1]))
    else if toFloat(t[2]).None? then Err(BadNumber(t[2]))
    else if toFloat(t[3]).None? then Err(BadNumber(t[3]))
    else if toFloat(t[4]).None? then Err(BadNumber(t[4]))
    else
      match toFloat(t[0]).value
      case NonFinite => Err(NonFiniteClass)
      case Num(c) =>
        Ok((YoloBox(toFloat(t[1]).value, toFloat(t[2]).value, toFloat(t[3]).value, toFloat(t[4]).value), Trunc(c)))
  }

  /** Whether a line is used: it has at least five whitespace-separated tokens. */
  predicate Accepted(line: string)
  {
    |Split(line)| >= 5
  }

  /** One iteration of the line loop: None for a line that is skipped. */
  function ParseLine(toFloat: string -> Option<PyFloat>, line: string): (r: Result<Option<(YoloBox, int)>, DatasetError>)
    ensures !Accepted(line) ==> r == Ok(None)
    ensures Accepted(line) ==> r.Err? || r.value.Some?
  {
    var parts := Split(line);
    if |parts| < 5 then Ok(None)
    else
      match ParseFields(toFloat, parts[..5])
      case Err(e) => Err(e)
      case Ok(entry) => Ok(Some(entry))
  }

  /** The two lists the loop builds. */
  datatype Labels = Labels(bboxes: seq<YoloBox>, classLabels: seq<int>)

  /** The loop over `readlines()`: appends one box and one class per used
      line; the first line that raises ends it with that error. */
  function ParseLabels(toFloat: string -> Option<PyFloat>, lines: seq<string>): Result<Labels, DatasetError>
    decreases |lines|
  {
    if lines == [] then Ok(Labels([], []))
    else
      match ParseLabels(toFloat, lines[..|lines| - 1])
      case Err(e) => Err(e)
      case Ok(l) =>
        match ParseLine(toFloat, lines[|lines| - 1])
        case Err(e) => Err(e)
        case Ok(None) => Ok(l)
        case Ok(Some(entry)) => Ok(Labels(l.bboxes + [entry.0], l.classLabels + [entry.1]))
  }

  /** The fields of an accepted line. */
  function EntryOf(toFloat: string -> Option<PyFloat>, line: string): Result<(YoloBox, int), DatasetError>
    requires Accepted(line)
  {
    ParseFields(toFloat, Split(line)[..5])
  }

  lemma ParseLabelsSnoc(toFloat: string -> Option<PyFloat>, lines: seq<string>, i: nat)
    requires i < |lines|
    ensures ParseLabels(toFloat, lines[..i + 1]) ==
      match ParseLabels(toFloat, lines[..i])
      case Err(e) => Err(e)
      case Ok(l) =>
        match ParseLine(toFloat, lines[i])
        case Err(e) => Err(e)
        case Ok(None) => Ok(l)
        case Ok(Some(entry)) => Ok(Labels(l.bboxes + [entry.0], l.classLabels + [entry.1]))
  {
    assert lines[..i + 1][..i] == lines[..i];
  }

  /** The label lists succeed exactly when every line does. */
  lemma {:induction false} ParseLabelsOk(toFloat: string -> Option<PyFloat>, lines: seq<string>)
    ensures ParseLabels(toFloat, lines).Ok? <==> forall i :: 0 <= i < |lines| ==> ParseLine(toFloat, lines[i]).Ok?
    decreases |lines|
  {
    if lines != [] {
      var front := lines[..|lines| - 1];
      ParseLabelsOk(toFloat, front);
      assert forall i :: 0 <= i < |front| ==> front[i] == lines[i];
    }
  }

  /** When the loop fails, it fails with the error of the first failing line. */
  lemma {:induction false} ParseLabelsFirstError(toFloat: string -> Option<PyFloat>, lines: seq<string>, e: DatasetError)
    requires ParseLabels(toFloat, lines) == Err(e)
    ensures exists i :: (0 <= i < |lines| && ParseLine(toFloat, lines[i]) == Err(e)
      && forall j :: 0 <= j < i ==> ParseLine(toFloat, lines[j]).Ok?)
    decreases |lines|
  {
    var front := lines[..|lines| - 1];
    assert forall i :: 0 <= i < |front| ==> front[i] == lines[i];
    if ParseLabels(toFloat, front).Err? {
      ParseLabelsFirstError(toFloat, front, e);
      var i :| 0 <= i < |front| && ParseLine(toFloat, front[i]) == Err(e)
        && forall j :: 0 <= j < i ==> ParseLine(toFloat, front[j]).Ok?;
      assert ParseLine(toFloat, lines[i]) == Err(e);
    } else {
      ParseLabelsOk(toFloat, front);
      assert ParseLine(toFloat, lines[|lines| - 1]) == Err(e);
    }
  }

  /** The used lines of a file, in order. */
  function AcceptedLines(lines: seq<string>): seq<string>
  {
    Filter(Accepted, lines)
  }

  lemma AcceptedLinesSnoc(front: seq<string>, line: string)
    ensures AcceptedLines(front + [line]) == AcceptedLines(front) + (if Accepted(line) then [line] else [])
  {
    FilterAppend(Accepted, front, [line]);
    FilterCons(Accepted, [line]);
  }

  /** A successful parse has one box and one class per used line, in file
      order, both taken from that line's first five tokens. */
  lemma {:induction false} ParseLabelsEntries(toFloat: string -> Option<PyFloat>, lines: seq<string>, l: Labels)
    requires ParseLabels(toFloat, lines) == Ok(l)
    ensures |l.bboxes| == |l.classLabels| == |AcceptedLines(lines)|
    ensures forall k :: 0 <= k < |l.bboxes| ==>
      Accepted(AcceptedLines(lines)[k]) && EntryOf(toFloat, AcceptedLines(lines)[k]) == Ok((l.bboxes[k], l.classLabels[k]))
    decreases |lines|
  {
    if lines != [] {
      var front, last := lines[..|lines| - 1], lines[|lines| - 1];
      assert lines == front + [last];
      var l' := ParseLabels(toFloat, front).value;
      ParseLabelsEntries(toFloat, front, l');
      AcceptedLinesSnoc(front, last);
      if Accepted(last) {
        LastEntry(toFloat, front, last, l', l);
      }
    }
  }

  lemma LastEntry(toFloat: string -> Option<PyFloat>, front: seq<string>, last: string, l': Labels, l: Labels)
    requires Accepted(last)
    requires ParseLabels(toFloat, front) == Ok(l')
    requires ParseLabels(toFloat, front + [last]) == Ok(l)
    requires |l'.bboxes| == |l'.classLabels| == |AcceptedLines(front)|
    requires forall k :: 0 <= k < |l'.bboxes| ==>
      Accepted(AcceptedLines(front)[k]) && EntryOf(toFloat, AcceptedLines(front)[k]) == Ok((l'.bboxes[k], l'.classLabels[k]))
    requires AcceptedLines(front + [last]) == AcceptedLines(front) + [last]
    ensures |l.bboxes| == |l.classLabels| == |AcceptedLines(front + [last])|
    ensures forall k :: 0 <= k < |l.bboxes| ==>
      Accepted(AcceptedLines(front + [last])[k]) && EntryOf(toFloat, AcceptedLines(front + [last])[k]) == Ok((l.bboxes[k], l.classLabels[k]))
  {
    assert (front + [last])[..|front|] == front;
  }

  /** The error of a prefix of the lines is the error of the whole file. */
  lemma {:induction false} ParseLabelsErrSticky(toFloat: string -> Option<PyFloat>, lines: seq<string>, i: nat)
    requires i <= |lines| && ParseLabels(toFloat, lines[..i]).Err?
    ensures ParseLabels(toFloat, lines) == ParseLabels(toFloat, lines[..i])
    decreases |lines| - i
  {
    if i == |lines| {
      assert lines[..i] == lines;
    } else {
      ParseLabelsSnoc(toFloat, lines, i);
      ParseLabelsErrSticky(toFloat, lines, i + 1);
    }
  }

  // -----------------------------------------------------------------------
  // Tokens after the fifth

  /** Tokens after the fifth never matter: appending more of them to a used
      line leaves its outcome as it was. */
  lemma ExtraTokensIgnored(toFloat: string -> Option<PyFloat>, line: string, extra: string)
    requires Accepted(line)
    ensures ParseLine(toFloat, line + " " + extra) == ParseLine(toFloat, line)
  {
    var c := " " + extra;
    assert line + " " + extra == line + c;
    SplitAppend(line, c);
    assert (Split(line) + Split(c))[..5] == Split(line)[..5];
  }

  /** A line written as five or more tokens separated by single spaces reads
      back as the box of tokens two to five and the class `int()` of the first,
      whatever follows the fifth token. */
  lemma ParseJoinedLine(toFloat: string -> Option<PyFloat>, ws: seq<string>, c: real)
    requires |ws| >= 5
    requires forall k :: 0 <= k < |ws| ==> ws[k] != [] && NoSpace(ws[k])
    requires toFloat(ws[0]) == Some(Num(c))
    requires forall k :: 1 <= k < 5 ==> toFloat(ws[k]).Some?
    ensures ParseLine(toFloat, Unwords(ws)) ==
      Ok(Some((YoloBox(toFloat(ws[1]).value, toFloat(ws[2]).value, toFloat(ws[3]).value, toFloat(ws[4]).value), Trunc(c))))
  {
    SplitUnwords(ws);
  }

  // -----------------------------------------------------------------------
  // The dataset

  /** The files the dataset reads: decodable images by path, and label files
      by path with the lines `readlines()` returns. */
  datatype Disk = Disk(images: map<string, Image>, labels: map<string, seq<string>>)

  /** What `__getitem__` hands to the augmentation transform. */
  datatype Sample = Sample(image: Image, bboxes: seq<YoloBox>, classLabels: seq<int>)

  /** `dataset[idx]`, for the image list `images`. */
  function Item(imgDir: string, labelDir: string, images: seq<string>, disk: Disk,
                toFloat: string -> Option<PyFloat>, idx: int): Result<Sample, DatasetError>
  {
    if !IndexInRange(idx, |images|) then Err(IndexOutOfRange)
    else
      var name := images[NormalIndex(idx, |images|)];
      var imgPath := Join(imgDir, name);
      if imgPath !in disk.images then Err(ImageUnreadable)
      else
        var image := disk.images[imgPath];
        var labelPath := LabelPath(labelDir, name);
        if labelPath !in disk.labels then Ok(Sample(image, [], []))
        else
          match ParseLabels(toFloat, disk.labels[labelPath])
          case Err(e) => Err(e)
          case Ok(l) => Ok(Sample(image, l.bboxes, l.classLabels))
  }

  class FoggyVehicleDataset {
    const imgDir: string
    const labelDir: string
    /** What `os.listdir(img_dir)` returned when the dataset was created. */
    ghost const listing: seq<string>
    const images: seq<string>

    constructor (imgDir: string, labelDir: string, listing: seq<string>)
      ensures this.imgDir == imgDir && this.labelDir == labelDir && this.listing == listing
      ensures images == ImageNames(listing)
    {
      this.imgDir := imgDir;
      this.labelDir := labelDir;
      this.listing := listing;
      images := ImageNames(listing);
    }

    ghost predicate Valid()
    {
      images == ImageNames(listing)
    }

    /** `len(dataset)`: the number of image entries of the listing. */
    function Length(): (n: nat)
      requires Valid()
      ensures n <= |listing|
      ensures n == |Filter(IsImageName, listing)|
    {
      |images|
    }

    /** `dataset[idx]`: the image, then its label file line by line. */
    method GetItem(disk: Disk, toFloat: string -> Option<PyFloat>, idx: int) returns (r: Result<Sample, DatasetError>)
      ensures r == Item(imgDir, labelDir, images, disk, toFloat, idx)
    {
      if !IndexInRange(idx, |images|) {
        return Err(IndexOutOfRange);
      }
      var name := images[NormalIndex(idx, |images|)];
      var imgPath := Join(imgDir, name);
      var labelPath := LabelPath(labelDir, name);
      if imgPath !in disk.images {
        return Err(ImageUnreadable);
      }
      var image := disk.images[imgPath];
      var bboxes: seq<YoloBox> := [];
      var classLabels: seq<int> := [];
      if labelPath in disk.labels {
        var labels := ReadLabels(toFloat, disk.labels[labelPath]);
        if labels.Err? {
          return Err(labels.error);
        }
        bboxes, classLabels := labels.value.bboxes, labels.value.classLabels;
      }
      return Ok(Sample(image, bboxes, classLabels));
    }
  }

  /** The loop over the lines of a label file: each used line appends its box
      and its class; the first line that raises ends the loop. */
  method ReadLabels(toFloat: string -> Option<PyFloat>, lines: seq<string>) returns (r: Result<Labels, DatasetError>)
    ensures r == ParseLabels(toFloat, lines)
  {
    var bboxes: seq<YoloBox> := [];
    var classLabels: seq<int> := [];
    for i := 0 to |lines|
      invariant ParseLabels(toFloat, lines[..i]) == Ok(Labels(bboxes, classLabels))
    {
      ParseLabelsSnoc(toFloat, lines, i);
      var parts := Split(lines[i]);
      if |parts| >= 5 {
        var fields := ParseFields(toFloat, parts[..5]);
        if fields.Err? {
          ParseLabelsErrSticky(toFloat, lines, i + 1);
          return Err(fields.error);
        }
        bboxes := bboxes + [fields.value.0];
        classLabels := classLabels + [fields.value.1];
      }
    }
    assert lines[..|lines|] == lines;
    return Ok(Labels(bboxes, classLabels));
  }

  // -----------------------------------------------------------------------
  // Properties of `dataset[idx]`

  /** Without a label file, an image comes with no boxes and no classes. */
  lemma MissingLabelFileEmpty(imgDir: string, labelDir: string, images: seq<string>, disk: Disk,
                              toFloat: string -> Option<PyFloat>, idx: int)
    requires IndexInRange(idx, |images|)
    requires Join(imgDir, images[NormalIndex(idx, |images|)]) in disk.images
    requires LabelPath(labelDir, images[NormalIndex(idx, |images|)]) !in disk.labels
    ensures Item(imgDir, labelDir, images, disk, toFloat, idx)
      == Ok(Sample(disk.images[Join(imgDir, images[NormalIndex(idx, |images|)])], [], []))
  {
  }

  /** The boxes and classes of a sample are aligned, one pair per used line of
      its label file, and an unreadable image fails before any label is read. */
  lemma ItemShape(imgDir: string, labelDir: string, images: seq<string>, disk: Disk,
                  toFloat: string -> Option<PyFloat>, idx: int)
    ensures !IndexInRange(idx, |images|) ==> Item(imgDir, labelDir, images, disk, toFloat, idx) == Err(IndexOutOfRange)
    ensures IndexInRange(idx, |images|) && Join(imgDir, images[NormalIndex(idx, |images|)]) !in disk.images ==>
      Item(imgDir, labelDir, images, disk, toFloat, idx) == Err(ImageUnreadable)
    ensures Item(imgDir, labelDir, images, disk, toFloat, idx).Ok? ==>
      var s := Item(imgDir, labelDir, images, disk, toFloat, idx).value;
      var lp := LabelPath(labelDir, images[NormalIndex(idx, |images|)]);
      && |s.bboxes| == |s.classLabels|
      && (lp in disk.labels ==> |s.bboxes| == |AcceptedLines(disk.labels[lp])|)
  {
    var r := Item(imgDir, labelDir, images, disk, toFloat, idx);
    if r.Ok? {
      var lp := LabelPath(labelDir, images[NormalIndex(idx, |images|)]);
      if lp in disk.labels {
        var lines := disk.labels[lp];
        var l := ParseLabels(toFloat, lines).value;
        ParseLabelsEntries(toFloat, lines, l);
      }
    }
  }

  /** A sample is produced exactly when the index is valid, the image reads,
      and every line of its label file (if any) parses. */
  lemma ItemOk(imgDir: string, labelDir: string, images: seq<string>, disk: Disk,
               toFloat: string -> Option<PyFloat>, idx: int)
    ensures Item(imgDir, labelDir, images, disk, toFloat, idx).Ok? <==>
      && IndexInRange(idx, |images|)
      && Join(imgDir, images[NormalIndex(idx, |images|)]) in disk.images
      && var lp := LabelPath(labelDir, images[NormalIndex(idx, |images|)]);
         lp in disk.labels ==> forall i :: 0 <= i < |disk.labels[lp]| ==> ParseLine(toFloat, disk.labels[lp][i]).Ok?
  {
    if IndexInRange(idx, |images|) {
      var lp := LabelPath(labelDir, images[NormalIndex(idx, |images|)]);
      if lp in disk.labels {
        ParseLabelsOk(toFloat, disk.labels[lp]);
      }
    }
  }
}
