# COCO-to-YOLO annotation converter, modelled in Dafny

This project models `coco_to_yolo`, the dataset converter of an object-detection
workflow. It reads COCO bounding-box annotations (an `images` list and an
`annotations` list) and writes YOLO label files into an output tree. For each
annotation, in input order, the converter:

- looks up the image record by id and skips the annotation if there is none;
- maps the category id through a fixed table (0..4 to itself) and skips the
  annotation if the category is not in the table;
- divides centre and size by the image's width and height, then clamps each of
  the four values to [0, 1];
- appends one line `class x_center y_center width height` to `labels/<stem>.txt`;
- the first time a `file_name` is seen in the run, copies the image into
  `images/`, but only if the source exists and the destination does not.

Files:

- `paths.dfy` (module `Paths`): `PurePosixPath.name`, `.suffix` and `.stem`,
  and the label-file name `stem + ".txt"`.
- `boxes.dfy` (module `Boxes`): normalisation, clamping and the inverse
  (denormalisation), all over `real`.
- `converter.dfy` (module `Converter`):
  - the COCO records and the id-to-image map;
  - the category table;
  - `Step` and `Run`, pure functions that specify one iteration and the whole
    loop;
  - the `OutputTree` class, which holds the label files and the output images
    and is updated in place;
  - the `CocoToYolo` method, whose loop is proved equal to `Run`;
  - lemmas about whole runs.

Modelling choices:

- The file system is abstract. `labels` maps a label-file name to its lines.
  `images` is the set of file names present in `images/`. The source image
  directory is the set `sourceImages` of names it holds. A file in either
  directory is identified by the literal `file_name` string of its record.
- `processed_images` is a local set of the method. The copies the run makes are
  returned, in order, as a ghost out-parameter (`copies`). This lets the model
  state "at most once".
- The source divides by the image's width and height. When one of them is 0,
  Python raises `ZeroDivisionError`: the run stops, and the lines and copies
  already made stay. The model keeps this as an outcome, `ZeroDivisionAt(i)`,
  rather than a precondition. A zero-sized image referenced only by skipped
  annotations is no error, as in the source.
- Numbers are `real`. Ids and category ids are `int`.

## Model

| member | source | states |
|---|---|---|
| `Paths.LastIndexOf` | cocos_to_yolo.py:52 | the result is -1 or a position holding the character, and no later position holds it (`str.rfind`, which `.stem` uses) |
| `Paths.Name` | cocos_to_yolo.py:52 | the last path component never contains `/` and is never `.` |
| `Paths.Stem` | cocos_to_yolo.py:52 | the stem is a prefix of the name, and stem followed by suffix gives the name back |
| `Paths.LabelFileName` | cocos_to_yolo.py:52 | the label file name ends in `.txt` and contains no `/`, so it lies directly in `labels/` |
| `Paths.NameOfComponent` | cocos_to_yolo.py:52 | a plain component (no `/`, not `.`) is its own name |
| `Paths.NameOfJoin` | cocos_to_yolo.py:52 | after a directory prefix, a plain component is still the name |
| `Paths.StemOfExtension` | cocos_to_yolo.py:52 | `base.ext` with a dot-free extension has stem `base` and suffix `.ext` |
| `Paths.LabelOfImageName` | cocos_to_yolo.py:52 | the label file of `base.ext` is `base.txt` |
| `Paths.LabelOfNestedImageName` | cocos_to_yolo.py:52 | a directory in front of the image name does not change the label file |
| `Paths.Suffix` | cocos_to_yolo.py:52 | a non-empty suffix is a dot followed by at least one dot-free character, ends the name and is shorter than it (a leading dot is no suffix) |
| `Paths.SharedStemSharesLabel` | cocos_to_yolo.py:52-59 | `base.ext1` and `base.ext2` map to the same label file `base.txt`, and for different extensions the two `file_name` strings differ; `Converter.CopiesAtMostOnce`, which keys copies on that string, then treats them as two images |
| `Boxes.Clamp01` | cocos_to_yolo.py:47-50 | the result lies in [0, 1], equals the input when the input does, and is 0 below the interval and 1 above it |
| `Boxes.Unclamped` | cocos_to_yolo.py:42-45 | the values before clamping are the centre and size relative to the image: multiplied back by the width (height) they give the pixel centre and size; the class id is kept |
| `Boxes.ToLine` | cocos_to_yolo.py:42-50 | for any box and any non-zero image size, all four written values lie in [0, 1], and the class id is kept |
| `Boxes.InsideNeedsNoClamp` | cocos_to_yolo.py:42-50 | for a box inside a positive-sized image, the unclamped values already lie in [0, 1], so clamping changes nothing |
| `Boxes.InsideRoundTrip` | cocos_to_yolo.py:42-50 | for a box inside the image, `w = width*W`, `x = x_center*W - w/2` (and likewise for y) give the original box back |
| `Boxes.CentreSaturates` | cocos_to_yolo.py:42-48 | a centre at or past the right (bottom) edge is written as 1, one at or before the left (top) edge as 0 |
| `Boxes.WorkedExample` | cocos_to_yolo.py:42-55 | box [10,20,30,40] of class 2 in a 100x200 image gives the line `2 0.25 0.2 0.3 0.2` |
| `Converter.YoloClass` | cocos_to_yolo.py:16-22 | a category id maps to a class iff it is in 0..4, and the class id then equals the category id |
| `Converter.ImageMap` | cocos_to_yolo.py:24 | every entry of `img_map` is one of the records, stored under its own id |
| `Converter.ImageMapKeys` | cocos_to_yolo.py:24 | the keys of `img_map` are exactly the ids of the image records |
| `Converter.ImageMapLaterWins` | cocos_to_yolo.py:24 | when two image records share an id, the later one is the one `img_map` holds |
| `Converter.Retained` | cocos_to_yolo.py:29-40 | an annotation gets past both skips iff its image id is in `img_map` and its category is in 0..4; `StepSkips` states what happens otherwise |
| `Converter.DividesByZero` | cocos_to_yolo.py:42-45 | no contract of its own: the retained annotations whose image has width or height 0; `Step` and `RunFailsAtFirstZeroDivision` state that exactly these raise |
| `Converter.Step` | cocos_to_yolo.py:28-62 | one iteration raises iff the annotation divides by zero; its effect is specified by `StepSkips`, `StepAppendsOneLine`, `StepCopiesOnce` and `StepGrows` |
| `Converter.Run` | cocos_to_yolo.py:27-62 | a stopped run names a position inside the annotation list; the whole loop is specified by `RunFailsAtFirstZeroDivision`, `RunStopsAfterFailure`, `RunSummary` and the lemmas after it |
| `Converter.StepSkips` | cocos_to_yolo.py:28-40 | an annotation with a missing image or an unmapped category changes no label file, no processed name, no copy |
| `Converter.StepAppendsOneLine` | cocos_to_yolo.py:52-55 | a retained annotation appends exactly one line, of its category, at the end of `stem(file_name).txt`; every other label file is unchanged |
| `Converter.StepCopiesOnce` | cocos_to_yolo.py:57-62 | the image is copied only if its name is new to the run, the source exists and the destination does not; the name is then marked as processed |
| `Converter.StepGrows` | cocos_to_yolo.py:27-62 | a step only grows the state: old label lines stay as a prefix, processed names, output images and earlier copies all stay |
| `Converter.RunFailsAtFirstZeroDivision` | cocos_to_yolo.py:42-45 | a run completes iff no retained annotation's image has width or height 0, and otherwise stops at the first one that does |
| `Converter.RunStopsAfterFailure` | cocos_to_yolo.py:27-45 | once the exception is raised, the remaining annotations change nothing |
| `Converter.RunSummary` | cocos_to_yolo.py:27-62 | a completed run works as the loop invariant says: processed names, label contents and keys, output images and copies, with no copy made twice |
| `Converter.ProcessedIsRetainedNames` | cocos_to_yolo.py:57-62 | after the loop, `processed_images` is exactly the set of file names of the retained annotations |
| `Converter.CopiesAtMostOnce` | cocos_to_yolo.py:57-61 | no image is copied twice; a name is copied iff it is retained, exists in the source and is absent from `images/` at the start; `images/` ends as the old files plus the copies |
| `Converter.LabelsAppendInOrder` | cocos_to_yolo.py:52-55 | each label file ends as its old lines followed by its annotations' lines, in annotation order |
| `Converter.StoppedRunIsPrefixRun` | cocos_to_yolo.py:27-62 | a run stopped by `ZeroDivisionError` at annotation `i` leaves exactly the state of the completed run over the annotations before `i`: each label file holds its old lines plus those annotations' lines, no image is copied twice, and a name is copied iff its guards held |
| `Converter.RerunDuplicatesLines` | cocos_to_yolo.py:52-61 | a second run over the same output appends every line again, but copies no image |
| `Converter.RunGrows` | cocos_to_yolo.py:27-62 | along any run, completed or stopped, `processed_images` and `images/` only grow and label files only get lines appended |
| `Converter.OutputTree.AppendLine` | cocos_to_yolo.py:54-55 | opening the label file in append mode adds the line at its end and leaves the rest of the tree untouched |
| `Converter.OutputTree.CopyImage` | cocos_to_yolo.py:61 | the copy adds the file name to `images/` and touches no label file |
| `Converter.ProcessAnnotation` | cocos_to_yolo.py:28-62 | one pass of the loop body changes the output tree, `processed_images` and the copies exactly as `Step` says, and changes nothing when it raises |
| `Converter.CocoToYolo` | cocos_to_yolo.py:7-62 | the loop leaves the output tree, the outcome and the copies made exactly as `Run` specifies |

## Left out

- JSON parsing (lines 8-9): the model takes the parsed `images` and
  `annotations` lists. A missing key or a malformed document raises in the
  source; the model's records always have every field.
- Creating the output directories (lines 13-14), the `tqdm` progress bar
  (line 27) and the unused `class_names` parameter (line 7).
- The `:.6f` formatting (line 55) and Python float rounding: a line is a class
  id and four reals. `Boxes.WorkedExample` gives the exact values before
  formatting.
- NaN and infinite coordinates, which Python floats allow and reals do not.
- Path semantics are POSIX only: `/` separates components, `.` components and
  trailing separators are dropped. Windows separators are not modelled. A name
  ending in a dot (`a.`) has no suffix, as in Python up to 3.13; Python 3.14
  changed this.
- File identity is the literal `file_name` string. `src.exists()`, `dest.exists()`
  and the copy (lines 57-61) all work on that string, so two spellings of one
  path (`./a.jpg` and `a.jpg`, `a//b.jpg` and `a/b.jpg`) count as two files,
  although `Paths.Name` normalises them to one label file. For such inputs the
  source finds the copied image already in `images/` and skips the second copy,
  while the model copies again. It also does not model that the source directory
  holds `a.jpg` when asked for `./a.jpg`.
- File names are compared as exact, case-sensitive strings, for label files
  (lines 52-54) as for images. On a case-insensitive file system `A.jpg` and
  `a.jpg` are one image file, and their label files `A.txt` and `a.txt` are one
  file that receives the lines of both. The model keeps them apart.
- Failures of `shutil.copy` are not modelled, for example a `file_name` with a
  directory part whose directory does not exist under `images/`. The source
  directory and `images/` are taken to be distinct directories.
- Python's equality between `2.0`, `True` and the integer keys of the category
  table and the image map is not modelled: all ids are integers.
- The `__main__` block with its hard-coded paths (lines 64-81) and all of
  `yolo_inference.py`: video capture, model inference, drawing and display are
  external-library calls with no logic of their own.
- The values are in the closed interval [0, 1], not strictly inside it as one
  might read a description of the format: a zero-size box at the left edge
  gives exactly 0. The model follows the code.
