# Foggy vehicle detection — a verified model of its decision logic

The system detects vehicles in foggy camera frames and warns of collisions:

1. It reads frames from a webcam, an IP camera stream, a video file, a single
   image or a folder of images.
2. It dehazes each frame and runs a YOLO detector on it.
3. It keeps the detections labelled car, truck or bus.
4. It estimates each vehicle's distance from the pixel height of its box.
5. It draws the results:
   - green boxes and labels for distant vehicles;
   - red boxes and a "COLLISION RISK" caption for vehicles closer than the
     warning distance, with a beep for each of those.
6. It can write the annotated frames to an output directory.

The training side has a dataset class. It pairs each image of a folder with a
YOLO label file, whose lines read `class x y w h`.

This project models that logic in Dafny and proves what it promises:

- `Distance` (`distance.dfy`): the similar-triangles distance estimate,
  `estimate_distance`.
- `Frames` (`frames.dfy`): the image value that the other modules pass around
  without looking inside.
- `Detector` (`detector.dfy`): the post-filter of `VehicleDetector.detect`.
  - Class-name lookup, for a dict or a list table.
  - The case-insensitive class filter.
  - Truncation of the corner coordinates.
  - Boxes whose processing raises are skipped.
  - A failed model call yields nothing.
- `Annotate` (`annotate.dfy`): `annotate_and_alert`.
  - The frame is a `Canvas` whose list of draw commands grows in place.
  - The daemon beep threads are counted by an `AlertSink`.
- `Runner` (`runner.dfy`):
  - `list_images`;
  - the source classification of `run_on_path`;
  - its image loop and its video loop;
  - the command-line dispatch of `main`.

  The outside world is a `World` value. It holds:
  - the file system;
  - the frames each capture yields;
  - the keys pressed;
  - whether the model loads;
  - the warning distance;
  - the resize, dehaze and inference steps, as opaque functions.
- `Dataset` (`dataset.dfy`): `FoggyVehicleDataset`.
  - The case-insensitive image filter.
  - `len`.
  - The label path built with `splitext`.
  - The line-by-line label parser with Python's error behaviour.
- Shared modules:
  - `Wrappers` and `Seqs` (`wrappers.dfy`): Option/Result and an ordered
    filter.
  - `Builtins` (`builtins.dfy`): Python's `str.lower`, `endswith`,
    `split()`, `" ".join`, `int()` of a float and `str()` of an int, list
    indexing with negative indices, and the code-point order of `list.sort()`.
  - `Paths` (`paths.dfy`): POSIX `os.path.join`, `basename` and `splitext`.

Each imperative routine is a `method` with loops, proved equal to a
recursive specification function:

- `detect` (`VehicleDetector.Detect` and `KeepBoxes`);
- `annotate_and_alert` (`AnnotateAndAlert`);
- `list_images` (`ListImages`);
- the two loops of `run_on_path` (`RunImages`, `RunVideo`);
- `__getitem__`'s line loop (`ReadLabels`).

The lemmas state the properties of those specification functions.

Some behaviours of the code a reader may not expect, which the model keeps:

- `list_images` uses `glob`, which on POSIX is case-sensitive and skips
  dotfiles. So `A.JPG` and `.hidden.jpg` are not listed
  (`Runner.UpperCaseAndHiddenNotListed`).
- The dataset's filter is case-insensitive and keeps dotfiles
  (`Dataset.ImageNamesExample`).
- A missing path that ends in `.mp4`, `.avi` or `.mov` counts as a video
  source. It ends in "Cannot open video source", not in `FileNotFoundError`
  (`Runner.MissingVideoCannotOpen`).
- The same holds for any `http…` source, even when a directory of that name
  exists (`Runner.StreamCheckedBeforeDirectory`).

## Model

| member | source | states |
|---|---|---|
| Distance.EstimateDistance | src/utils/distance.py:1-14 | infinity exactly when the height is missing or at most 1 px; otherwise distance × height = 1.5 × 800, and the distance lies strictly between 0 and 1200 m |
| Distance.EstimateDeterminesHeight | src/utils/distance.py:10-12 | a finite estimate determines the box height it came from |
| Distance.EstimateDecreasing | src/utils/distance.py:12 | above one pixel, a taller box always gives a strictly smaller distance |
| Distance.QuotientDecreasing | src/utils/distance.py:12 | proof helper with no code of its own: c/x > c/y for c > 0 and 0 < x < y, the division step behind EstimateDecreasing |
| Distance.EstimateIgnoresFrameHeight | src/utils/distance.py:1-12 | the frame height argument never changes the estimate |
| Distance.EstimateAt1200 | src/utils/distance.py:6-12 | a 1200-pixel box is exactly 1 m away |
| Distance.SmallBoxNeverBelow | src/utils/distance.py:10-11 | a missing or ≤ 1 px height is below no warning distance |
| Detector.LookupName | src/detection/detector.py:26-27 | dict table: the entry, or `str(id)` when unknown; list table: defined exactly when the Python index is in range, and then the element at the normalised index |
| Detector.ProcessBox | src/detection/detector.py:25-34 | definition of one box's `try` body: the detection when the class id converts, the name lookup succeeds, the lower-cased name is allowed and the first corner row has four values; nothing otherwise. Its properties are KeptAllowed, KeptOrigin and UnknownDictIdDropped |
| Detector.Kept | src/detection/detector.py:24-34 | definition of the box loop: each box's outcome, in box order. Its properties are KeptAppend, SkippedBoxInvisible and KeptOrigin |
| Detector.Detections | src/detection/detector.py:17-36 | definition of `detect`'s result: nothing when the model call raised, else Kept over the boxes of all results in order. Detect is proved equal to it |
| Detector.VehicleDetector.constructor | src/detection/detector.py:6-13 | keeps the model's name table; the allowed classes are car, truck, bus |
| Detector.VehicleDetector.Detect | src/detection/detector.py:15-36 | the result is the ordered filter of all boxes of all results (none if the call raised), and every label, lower-cased, is an allowed class |
| Detector.VehicleDetector.KeepBoxes | src/detection/detector.py:24-34 | the inner loop appends exactly the kept detections of one result's boxes, in order |
| Detector.KeptAllowed | src/detection/detector.py:29-32 | every kept label lower-cases to car, truck or bus |
| Detector.KeptAppend | src/detection/detector.py:23-34 | the filter works box by box: the detections of a concatenation are those of its parts, in order |
| Detector.SkippedBoxInvisible | src/detection/detector.py:25-34 | a box that is filtered out or raises leaves the other boxes' detections unchanged |
| Detector.KeptOrigin | src/detection/detector.py:23-32 | never more detections than boxes; each detection carries the name looked up for its box's class and truncated box corners |
| Detector.AllowedBoxKept | src/detection/detector.py:25-32 | a box that converts, whose looked-up name lower-cases to car, truck or bus, is kept as the detection with that name and its truncated corners |
| Detector.InferenceFailureYieldsNothing | src/detection/detector.py:17-21 | a raising model call yields no detections |
| Detector.UnknownDictIdDropped | src/detection/detector.py:27-29 | with a dict table, an id it lacks is named by its digits and is never kept |
| Detector.UpperCaseNameKept | src/detection/detector.py:29-32 | "Car" is kept and reported as "Car"; corners 1.5, 2.0, 30.9, -4.7 truncate toward zero to 1, 2, 30, -4 |
| Annotate.ColorFor | src/inference.py:56-70 | red exactly when the distance is below the warning distance, green exactly otherwise |
| Annotate.DrawsFor | src/inference.py:52-77 | definition of one detection's draw calls: the caption when at risk, then the rectangle and the label. Its properties are DrawsForKinds and the three per-detection lemmas |
| Annotate.Annotations | src/inference.py:51-77 | definition of the draw calls of all detections, in order. AnnotateAndAlert is proved to append exactly it |
| Annotate.Canvas.Apply | src/inference.py:59-77 | one drawing call appends exactly its command to the frame |
| Annotate.AlertSink.Beep | src/inference.py:65-68 | starting a beep thread adds one scheduled beep |
| Annotate.AnnotateOne | src/inference.py:52-77 | one detection draws, in order, the risk caption (if at risk), the rectangle and the label, and schedules a beep iff beeping is on and it is at risk |
| Annotate.AnnotateAndAlert | src/inference.py:51-77 | the frame gains exactly the draws of every detection in order; beeps scheduled = number of at-risk detections when beeping is on, else none |
| Annotate.DrawsForKinds | src/inference.py:59-77 | per detection: one rectangle, one distance label, and a risk caption exactly when at risk |
| Annotate.OneRectanglePerDetection | src/inference.py:70 | the frame holds one rectangle per detection, the i-th from (x1,y1) to (x2,y2) in the detection's colour, thickness 2 |
| Annotate.OneLabelPerDetection | src/inference.py:71-77 | one label per detection, the i-th reading "label distance" at (x1, y2+20), scale 0.6, in the detection's colour |
| Annotate.RiskTextPerRiskyDetection | src/inference.py:57-64 | the "COLLISION RISK" captions are exactly one per at-risk detection, in order, each at (x1, y1-10), scale 0.7, red |
| Annotate.FlatBoxesNeverAlert | src/inference.py:53-68 | detections with y2 - y1 ≤ 1 (for which the estimate is infinite) are never at risk, draw no risk caption and start no beep |
| Annotate.DistantCarExample | src/inference.py:51-77 | a 50 px car at warning distance 20 m is 24 m away: green rectangle and label, no alert |
| Annotate.CloseTruckExample | src/inference.py:51-77 | a 100 px truck is 12 m away: red caption at (0,190), red rectangle, label at (0,320), one alert |
| Runner.Glob | src/inference.py:84 | `glob(join(dir, "*" + ext))` lists exactly the joined names of the entries not starting with '.' that end in `ext` (case-sensitive) |
| Runner.GlobMatch | src/inference.py:84 | definition of the POSIX match of `*ext`: a non-empty entry not starting with '.' that ends in `ext`, case included. Its consequence is UpperCaseAndHiddenNotListed |
| Runner.GlobAllSound | src/inference.py:83-84 | every collected file matched one of the patterns |
| Runner.GlobAllComplete | src/inference.py:83-84 | every file matching one of the patterns is collected |
| Runner.GlobAllMembers | src/inference.py:81-84 | a file is collected iff it matches one of the three patterns |
| Runner.ListingMembers | src/inference.py:80-86 | the listing holds exactly the matching files |
| Runner.ListImages | src/inference.py:80-86 | the loop over the patterns and the sort give the listing: sorted, and it holds exactly the matching files |
| Runner.ListingExtensions | src/inference.py:81-84 | every listed file ends in .jpg, .jpeg or .png |
| Runner.UpperCaseAndHiddenNotListed | src/inference.py:81-84 | "A.JPG" and ".hidden.jpg" are not listed |
| Runner.Quit | src/inference.py:163 | definition of `key & 0xFF == ord('q')` (also line 128) as the key code's low byte; QuitOnLowByte gives its cases |
| Runner.QuitOnLowByte | src/inference.py:163 | 'q' quits, also with bits set above its byte; no key (-1) and 'Q' do not |
| Runner.ProcessFrame | src/inference.py:153-156 | definition of one frame's resize, dehaze, detect and annotate (also lines 118-121): the resized frame, the draws of its detections and, when beeping, one beep per at-risk detection. AnnotateFrame is proved equal to it |
| Runner.ImageLoop | src/inference.py:148-164 | definition of the image loop's trace: unreadable paths skipped, each readable one processed and written as out/basename, and a stop on 'q' only when shown. Its properties are ImageOutputsPerFrame, ImagesWithoutWindow, ImageLoopHead and QuitTruncatesImages |
| Runner.VideoLoop | src/inference.py:113-129 | definition of the video loop's trace: frames until the first failed read, each written to out/output.mp4, and a stop on 'q' only when shown. Its properties are VideoStopsAtFirstFailure and VideoWritesOneFile |
| Runner.IsStream | src/inference.py:93-97 | definition of the stream test: a camera index, a string starting with "http", or one whose lower-case form ends in .mp4, .avi or .mov |
| Runner.VideoExtensionAnyCase | src/inference.py:96 | any path ending in ".MP4" is opened as a video: the extension test ignores case |
| Runner.ImagesOf | src/inference.py:138-143 | definition of the images of a non-stream path: a directory's listing, else the file alone, else none (FileNotFoundError). Its consequence is MissingPathNotFound |
| Runner.Run | src/inference.py:89-164 | definition of `run_on_path`'s outcome: model load, stream test and open, then directory, file or not found, then the loops. RunOnPath is proved equal to it |
| Runner.ThenAssociative | src/inference.py:148-164 | proof helper for the loop traces, with no code of its own: composing traces is associative |
| Runner.ThenNothing | src/inference.py:148-164 | proof helper for the loop traces, with no code of its own: the empty trace is a unit of composition |
| Runner.AnnotateFrame | src/inference.py:153-156 | resize, dehaze, detect, annotate: the frame `ProcessFrame` gives, with its beeps scheduled |
| Runner.RunImages | src/inference.py:148-164 | the image loop produces exactly the trace `ImageLoop` gives and schedules its beeps: unreadable images are skipped, images are written as out/basename, 'q' quits when a window is shown |
| Runner.RunVideo | src/inference.py:113-129 | the video loop produces exactly the trace `VideoLoop` gives: it stops at the end or at the first failed read, writes to out/output.mp4, and quits on 'q' |
| Runner.RunOnPath | src/inference.py:89-164 | model load first, then stream classification, open failure, directory/file/not-found, and the loops, with the run's beeps scheduled |
| Runner.ImageOutputsPerFrame | src/inference.py:158-159 | with an output directory, one image written per processed frame; without one, none |
| Runner.ImagesWithoutWindow | src/inference.py:148-159 | without a window, every readable image is processed, and the written paths are out/basename of the readable images, in order |
| Runner.FramesWithoutWindow | src/inference.py:148-156 | without a window, the frame count is the number of readable images |
| Runner.WritesWithoutWindow | src/inference.py:148-159 | without a window and with an output directory, the written paths are out/basename of the readable images, in order |
| Runner.ListedImageKeepsName | src/inference.py:84-159 | a listed image is written under its own file name |
| Runner.ImageLoopIgnoresKeys | src/inference.py:161-164 | without a window, neither the keys pressed nor the position reached in them changes the image loop |
| Runner.ImageLoopHead | src/inference.py:148-164 | a readable first image contributes one frame and its output before the rest, unless 'q' stops the loop after it |
| Runner.QuitTruncatesImages | src/inference.py:161-164 | showing a window (and so quitting on 'q') only truncates the run: no more frames, and the outputs form a prefix of the window-less outputs |
| Runner.VideoStopsAtFirstFailure | src/inference.py:114-116 | nothing after the first failed read matters |
| Runner.VideoWritesOneFile | src/inference.py:104-124 | every video output goes to out/output.mp4, and only when an output directory is set |
| Runner.VideoWithoutWindow | src/inference.py:113-124 | without a window, every frame before the first failed read (or the end) is annotated, and each is written when an output directory is set |
| Runner.VideoFramesWithoutWindow | src/inference.py:113-121 | without a window, the frame count is the number of good reads before the first failed one |
| Runner.VideoWritesWithoutWindow | src/inference.py:113-124 | without a window, one write per good read when an output directory is set, none otherwise |
| Runner.VideoQuit | src/inference.py:126-129 | with a window, 'q' after the first frame ends the loop with that frame as the only one annotated and written |
| Runner.MissingPathNotFound | src/inference.py:138-143 | a non-stream path that is neither a directory nor a file raises FileNotFoundError |
| Runner.DirectoryRunsListing | src/inference.py:138-139 | a non-stream directory runs the image loop over its sorted listing |
| Runner.FileRunsAlone | src/inference.py:140-141 | a non-stream path that is a file and not a directory runs the image loop over that file alone |
| Runner.MissingVideoCannotOpen | src/inference.py:93-101 | a missing path with a video extension fails as an unopenable video source |
| Runner.StreamCheckedBeforeDirectory | src/inference.py:93-138 | an http source is opened as a stream even when a directory of that name exists |
| Runner.ModelLoadedFirst | src/inference.py:89-90 | a model that fails to load fails the run before the source is looked at |
| Runner.Dispatch | src/inference.py:188-200 | help is printed exactly when there is no webcam flag, no URL and no input; otherwise the settings are output, show and not no-beep, and without the webcam flag or a URL the source is the input path |
| Runner.WebcamWins | src/inference.py:188-190 | the webcam flag selects camera 0 whatever the URL and the input |
| Runner.AndroidUrlBeatsInput | src/inference.py:192-194 | a URL is used whatever the input |
| Runner.Cli | src/inference.py:168-200 | help does nothing and schedules no beep; otherwise the run of the dispatched source and settings, with that run's beeps scheduled |
| Dataset.IsImageName | src/data/dataset.py:11 | definition of the filter test: the lower-cased name ends in .jpg, .jpeg or .png, dotfiles included |
| Dataset.ImageNames | src/data/dataset.py:11 | definition of `self.images`: the listing filtered by IsImageName, in listing order. Its properties are ImageNamesMembers, ImageNamesIdempotent and ImageNamesExample |
| Dataset.ImageNamesMembers | src/data/dataset.py:11 | the image list holds exactly the entries whose lower-cased name ends in .jpg, .jpeg or .png |
| Dataset.ImageNamesIdempotent | src/data/dataset.py:11 | filtering the image list again changes nothing |
| Dataset.ImageNamesExample | src/data/dataset.py:11 | "x.JPG" and ".png" are kept, "x.txt" is not, order preserved |
| Dataset.UpperExtensionKept | src/data/dataset.py:11 | any name ending in ".JPG" is an image |
| Dataset.TextDropped | src/data/dataset.py:11 | any name ending in ".txt" is not an image |
| Dataset.FoggyVehicleDataset.constructor | src/data/dataset.py:7-11 | the image list is the filtered listing |
| Dataset.FoggyVehicleDataset.Length | src/data/dataset.py:14-15 | the length is the number of image entries in the listing, at most the listing's size |
| Dataset.LabelPath | src/data/dataset.py:21 | the label path always ends in ".txt" |
| Dataset.LabelPathOfImage | src/data/dataset.py:21 | for an image stem+ext (ext any case of .jpg/.jpeg/.png) whose stem has no '/' and holds a character other than '.', the label path is label_dir/stem.txt |
| Dataset.DotfileLabelPath | src/data/dataset.py:21 | the dotfile ".jpg" has no extension to replace: its label is labels/.jpg.txt |
| Dataset.ParseFields | src/data/dataset.py:35-37 | succeeds iff all five tokens convert and the class is finite; the class is int() of the first, the box the other four; otherwise the error of the first failing token, else a non-finite class |
| Dataset.ParseLine | src/data/dataset.py:33-34 | a line with fewer than five tokens is skipped; a line with five or more yields an entry or an error |
| Dataset.ParseLabels | src/data/dataset.py:32-37 | definition of the line loop: the entries of the accepted lines in file order, or the first error. Its properties are ParseLabelsOk, ParseLabelsFirstError, ParseLabelsEntries and ParseLabelsErrSticky |
| Dataset.ParseLabelsOk | src/data/dataset.py:32-37 | the label file parses iff every line does |
| Dataset.ParseLabelsFirstError | src/data/dataset.py:32-37 | a failing file fails with the error of its first failing line |
| Dataset.ParseLabelsEntries | src/data/dataset.py:32-37 | bboxes and class_labels have equal length, one pair per accepted line in file order, each from that line's first five tokens |
| Dataset.ParseLabelsErrSticky | src/data/dataset.py:32-37 | an error in the first lines is the error of the whole file |
| Dataset.ExtraTokensIgnored | src/data/dataset.py:35 | tokens after the fifth never change a line's outcome |
| Dataset.ParseJoinedLine | src/data/dataset.py:33-37 | a line that is five or more space-joined tokens reads back as those tokens' box and truncated class |
| Dataset.ReadLabels | src/data/dataset.py:31-37 | the loop over `readlines()` builds exactly the lists `ParseLabels` gives, or stops with its first error |
| Dataset.Item | src/data/dataset.py:17-37 | definition of `dataset[idx]`: IndexError, then the unreadable image, then the labels of the label file, or none without a file. GetItem is proved equal to it, and ItemShape and ItemOk state its cases |
| Dataset.FoggyVehicleDataset.GetItem | src/data/dataset.py:17-37 | `dataset[idx]`: the index error, then the unreadable image, then empty labels without a label file, else the parsed labels |
| Dataset.MissingLabelFileEmpty | src/data/dataset.py:26-30 | without a label file the sample has no boxes and no classes |
| Dataset.ItemShape | src/data/dataset.py:18-37 | an out-of-range index fails first, an unreadable image next; a sample has as many boxes as classes, one per accepted line |
| Dataset.ItemOk | src/data/dataset.py:17-37 | a sample is produced iff the index is valid, the image reads, and every line of the label file (if any) parses |
| Builtins.Lower | src/data/dataset.py:11 | `str.lower`: same length, each character folded |
| Builtins.SplitWords | src/data/dataset.py:33 | every token of `split()` is non-empty and free of whitespace |
| Builtins.SplitAppend | src/data/dataset.py:33 | splitting text, then whitespace, then more text gives the tokens of both parts |
| Builtins.SplitUnwords | src/data/dataset.py:33 | `split()` undoes `" ".join` of non-empty tokens without whitespace |
| Builtins.Trunc | src/detection/detector.py:26-31 | `int()` of a float truncates toward zero |
| Builtins.IntToString | src/detection/detector.py:27 | `str(id)` is an optional '-' followed by digits |
| Builtins.NormalIndex | src/detection/detector.py:27 | a Python index normalises into range, counting negative indices from the end |
| Builtins.LexLeTotal | src/inference.py:85 | any two strings are ordered one way or the other |
| Builtins.LexLeTransitive | src/inference.py:85 | the string order is transitive |
| Builtins.LexLeAntisymmetric | src/inference.py:85 | strings ordered both ways are equal |
| Builtins.Insert | src/inference.py:85 | insertion keeps the list sorted and adds exactly the element |
| Builtins.SortStrings | src/inference.py:85 | `files.sort()`: sorted, a permutation of its input |
| Paths.Join | src/data/dataset.py:19-21 | `os.path.join(a, b)` always ends with `b` |
| Paths.Basename | src/inference.py:159 | `basename` is a '/'-free suffix of the path |
| Paths.BasenameOfJoin | src/inference.py:84-159 | the basename of dir joined with a plain name is that name |
| Paths.SplitExt | src/data/dataset.py:21 | `splitext`: root + ext is the path, and ext is empty or '.' followed by a text without '.' or '/' |
| Paths.SplitExtOfJoin | src/data/dataset.py:21 | splitting dir/stem.ext gives back dir/stem and .ext when the stem holds a character other than '.' |

## Left out

- Camera and file I/O, windows and OpenCV drawing are not modelled. Captures,
  files, key presses and the model appear as values in `World` or `Disk`.
  Drawing appends commands to `Canvas.drawn`.
- The beep threads and their sound are not modelled. Each started thread is
  one increment of `AlertSink.scheduled`.
- The resize to 640×640, `dehaze_image` (src/dehazing/dehaze.py) and the YOLO
  model call are opaque functions of `World`. `CONFIDENCE_THRESHOLD`,
  `MODEL_PATH` and `WARNING_DISTANCE_METERS` live in an unshown config
  module; the threshold is inside the opaque model call, the model path
  appears only as whether the model loads, and the warning distance is a
  parameter.
- The video writer's fourcc, frame rate and frame size are not modelled. The
  model records each `writer.write` call, not what reaches the file. The
  writer is opened with the capture's frame size (src/inference.py:108-111)
  but is given 640×640 frames (lines 118 and 124). OpenCV's writer may drop
  frames of another size, so `output.mp4` may hold fewer frames than the
  model's trace, or none.
- `os.makedirs` is not modelled; the output directory is assumed to be
  creatable.
- The console messages other than the two that are outcomes are not
  modelled: the load-failure print before the re-raise
  (src/detection/detector.py:10) and the "Model inference error" print
  (src/detection/detector.py:20). The "Cannot open video source" print is the
  `CannotOpen` outcome, and the help print is the `Help` command.
- `safe_imshow` and its matplotlib fallback are not modelled: the loops call
  `cv2.imshow` directly.
- Floating point is not modelled. Distances and coordinates are exact reals.
- `estimate_distance`'s `except` branch cannot be reached on reals, so it is
  not modelled.
- The `"{label} {distance:.1f}m"` text is kept as the pair (label, distance);
  its one-decimal formatting is not modelled.
- `waitKey` is modelled as a finite list of key codes. It returns -1 once that
  list is exhausted.
- The video loop's `while True` is a loop over the finite list of frames the
  capture yields. A capture that never ends is not modelled.
- `glob.glob` is modelled on the entries of one directory for the patterns
  `*.jpg`, `*.jpeg` and `*.png`. Glob metacharacters inside the directory name
  and a directory name ending in several '/' are not modelled.
- `str.lower` folds only ASCII letters. Python's full Unicode case mapping is
  not modelled.
- `float()` of a token is an abstract partial function `toFloat`. Infinities
  and NaN are the single value `NonFinite`.
- Whether `int()` of a non-finite class raises `OverflowError` or `ValueError`
  is not modelled; both are `NonFiniteClass`.
- `cv2.cvtColor`'s BGR-to-RGB channel swap is not modelled: the sample carries
  the image as read. An unreadable image is the `ImageUnreadable` error that
  `cvtColor(None)` raises.
- `FoggyVehicleDataset.GetItem` returns the sample handed to the augmentation
  transform. `get_train_augmentations` (random flips, colour jitter and its
  box handling) is not part of this model.
- A label path that exists but is a directory, or cannot be opened, is not
  modelled.
- A `listdir` entry for a sub-directory is filtered like any other name, as in
  the code, and then cannot be read.
- A result whose `boxes` attribute exists but is None makes
  `for box in getattr(r, 'boxes', [])` (src/detection/detector.py:24) raise
  TypeError outside the `try`. The model's `boxes: None` means only that the
  attribute is missing, so that TypeError is not modelled.
- `os.listdir` on a missing image folder (src/data/dataset.py:11) raises
  FileNotFoundError; the model's constructor takes the listing as given, so
  that error is not modelled.
- A label file that cannot be decoded makes `readlines` raise
  UnicodeDecodeError. Label files are modelled as lists of lines, so that
  error is not modelled.
- Paths and glob are modelled for POSIX only. The code also runs on Windows
  (the `winsound` beep of src/inference.py:38-45), where paths may use `\` and
  glob matching ignores case. Neither is modelled.
- train.py and evaluate.py only wire these parts together, so they are not
  part of this model.
