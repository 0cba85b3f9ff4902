/** The COCO-to-YOLO annotation converter: for each annotation in order, find its
    image, map its category, append one normalised line to the image's label file
    and copy the image into the output tree the first time its file name is seen. */
module Converter {
  import opened Boxes
  import opened Paths

  datatype Option<T> = None | Some(value: T)

  /** An entry of the `images` list of a COCO document. */
  datatype ImageRecord = ImageRecord(id: int, fileName: string, width: real, height: real)

  /** An entry of the `annotations` list of a COCO document. */
  datatype Annotation = Annotation(imageId: int, bbox: BBox, categoryId: int)

  /** The parsed COCO document. */
  datatype Coco = Coco(images: seq<ImageRecord>, annotations: seq<Annotation>)

  /** COCO category id to YOLO class id (lines 16-22). */
  const CategoryTable: map<int, int> := map[0 := 0, 1 := 1, 2 := 2, 3 := 3, 4 := 4]

  /** `category_id_to_yolo_id.get(category_id)`. */
  function YoloClass(categoryId: int): (r: Option<int>)
    ensures r.Some? <==> 0 <= categoryId <= 4
    ensures r.Some? ==> r.value == categoryId
  {
    if categoryId in CategoryTable then Some(CategoryTable[categoryId]) else None
  }

  /** No record after position `k` carries the id of record `k`. */
  predicate LastWithId(images: seq<ImageRecord>, k: nat)
    requires k < |images|
  {
    forall j :: k < j < |images| ==> images[j].id != images[k].id
  }

  /** `{img['id']: img for img in images}` (line 24): later records overwrite
      earlier ones with the same id. */
  function ImageMap(images: seq<ImageRecord>): (m: map<int, ImageRecord>)
    ensures forall id :: id in m ==> m[id].id == id && m[id] in images
    decreases |images|
  {
    if images == [] then map[]
    else ImageMap(images[..|images| - 1])[images[|images| - 1].id := images[|images| - 1]]
  }

  /** The keys of the image map are exactly the ids of the records. */
  lemma {:induction false} ImageMapKeys(images: seq<ImageRecord>)
    ensures forall id :: id in ImageMap(images) <==> exists k :: 0 <= k < |images| && images[k].id == id
    decreases |images|
  {
    if images != [] {
      var init := images[..|images| - 1];
      ImageMapKeys(init);
      forall id ensures id in ImageMap(images) <==> exists k :: 0 <= k < |images| && images[k].id == id {
        if id in ImageMap(init) {
          var k :| 0 <= k < |init| && init[k].id == id;
          assert images[k].id == id;
        }
        if exists k :: 0 <= k < |images| && images[k].id == id {
          var k :| 0 <= k < |images| && images[k].id == id;
          if k < |init| {
            assert init[k].id == id;
          }
        }
      }
    }
  }

  /** When two records share an id, the later one wins. */
  lemma {:induction false} ImageMapLaterWins(images: seq<ImageRecord>, k: nat)
    requires k < |images| && LastWithId(images, k)
    ensures images[k].id in ImageMap(images)
    ensures ImageMap(images)[images[k].id] == images[k]
    decreases |images|
  {
    var init := images[..|images| - 1];
    if k < |init| {
      assert images[|images| - 1].id != images[k].id;
      assert forall j :: k < j < |init| ==> init[j] == images[j];
      ImageMapLaterWins(init, k);
    }
  }

  /** The output tree and the run's bookkeeping: label files (name to lines),
      the files present in `images/`, the file names already handled
      (`processed_images`), and the copies made, in order. */
  datatype State = State(
    labels: map<string, seq<Line>>,
    outputImages: set<string>,
    processed: set<string>,
    copies: seq<string>)

  /** Lines of a label file; a missing file reads as empty. */
  function Contents(labels: map<string, seq<Line>>, name: string): seq<Line>
  {
    if name in labels then labels[name] else []
  }

  /** The state a run starts from: the output tree as it is, nothing processed. */
  function Start(labels: map<string, seq<Line>>, outputImages: set<string>): State
  {
    State(labels, outputImages, {}, [])
  }

  /** The annotation gets past both skips (lines 29-31 and 38-40). */
  predicate Retained(imgMap: map<int, ImageRecord>, a: Annotation)
    ensures Retained(imgMap, a) <==> a.imageId in imgMap && 0 <= a.categoryId <= 4
  {
    a.imageId in imgMap && YoloClass(a.categoryId).Some?
  }

  /** A retained annotation whose image has width or height 0: the division
      at lines 42-45 raises `ZeroDivisionError`. */
  predicate DividesByZero(imgMap: map<int, ImageRecord>, a: Annotation)
  {
    Retained(imgMap, a) && (imgMap[a.imageId].width == 0.0 || imgMap[a.imageId].height == 0.0)
  }

  /** The line written for a retained annotation. */
  function LineOf(imgMap: map<int, ImageRecord>, a: Annotation): (l: Line)
    requires Retained(imgMap, a) && !DividesByZero(imgMap, a)
  {
    var info := imgMap[a.imageId];
    ToLine(YoloClass(a.categoryId).value, a.bbox, info.width, info.height)
  }

  /** The label file a retained annotation is written to. */
  function LabelOf(imgMap: map<int, ImageRecord>, a: Annotation): string
    requires a.imageId in imgMap
  {
    LabelFileName(imgMap[a.imageId].fileName)
  }

  /** One iteration of the loop (lines 28-62); `None` is the `ZeroDivisionError`. */
  function Step(s: State, imgMap: map<int, ImageRecord>, sourceImages: set<string>, a: Annotation): (r: Option<State>)
    ensures r.None? <==> DividesByZero(imgMap, a)
  {
    if !Retained(imgMap, a) then Some(s)
    else if DividesByZero(imgMap, a) then None
    else
      var f := imgMap[a.imageId].fileName;
      var name := LabelOf(imgMap, a);
      var labels := s.labels[name := Contents(s.labels, name) + [LineOf(imgMap, a)]];
      if f in s.processed then Some(s.(labels := labels))
      else if f in sourceImages && f !in s.outputImages then
        Some(State(labels, s.outputImages + {f}, s.processed + {f}, s.copies + [f]))
      else
        Some(State(labels, s.outputImages, s.processed + {f}, s.copies))
  }

  /** A run stopped by an exception raised at annotation `at`, or one that finished. */
  datatype Outcome = Completed | ZeroDivisionAt(at: nat)

  datatype RunResult = RunResult(state: State, outcome: Outcome)

  /** The loop of line 27 over `anns`, from state `s`. */
  function Run(s: State, imgMap: map<int, ImageRecord>, sourceImages: set<string>, anns: seq<Annotation>): (r: RunResult)
    ensures r.outcome.ZeroDivisionAt? ==> r.outcome.at < |anns|
    decreases |anns|
  {
    if anns == [] then RunResult(s, Completed)
    else
      var r := Run(s, imgMap, sourceImages, anns[..|anns| - 1]);
      if r.outcome.ZeroDivisionAt? then r
      else match Step(r.state, imgMap, sourceImages, anns[|anns| - 1])
        case None => RunResult(r.state, ZeroDivisionAt(|anns| - 1))
        case Some(s') => RunResult(s', Completed)
  }

  // ---------------------------------------------------------------------------
  // Reference definitions of what a whole run produces

  /** No retained annotation divides by zero. */
  predicate NoZeroDivision(imgMap: map<int, ImageRecord>, anns: seq<Annotation>)
  {
    forall k :: 0 <= k < |anns| ==> !DividesByZero(imgMap, anns[k])
  }

  /** The lines the annotations contribute to label file `name`, in order. */
  function LinesFor(imgMap: map<int, ImageRecord>, anns: seq<Annotation>, name: string): seq<Line>
    requires NoZeroDivision(imgMap, anns)
    decreases |anns|
  {
    if anns == [] then []
    else
      var a := anns[|anns| - 1];
      LinesFor(imgMap, anns[..|anns| - 1], name)
      + (if Retained(imgMap, a) && LabelOf(imgMap, a) == name then [LineOf(imgMap, a)] else [])
  }

  /** The file names of the retained annotations' images. */
  function RetainedNames(imgMap: map<int, ImageRecord>, anns: seq<Annotation>): set<string>
    decreases |anns|
  {
    if anns == [] then {}
    else
      var a := anns[|anns| - 1];
      RetainedNames(imgMap, anns[..|anns| - 1])
      + (if Retained(imgMap, a) then {imgMap[a.imageId].fileName} else {})
  }

  predicate NoDuplicates(s: seq<string>)
  {
    forall i, j :: 0 <= i < j < |s| ==> s[i] != s[j]
  }

  /** Each label file holds its old lines followed by the lines `anns` contribute. */
  ghost predicate LabelsSummarize(labels: map<string, seq<Line>>, labels0: map<string, seq<Line>>,
                                  imgMap: map<int, ImageRecord>, anns: seq<Annotation>)
    requires NoZeroDivision(imgMap, anns)
  {
    && (forall name :: Contents(labels, name) == Contents(labels0, name) + LinesFor(imgMap, anns, name))
    && (forall name :: name in labels <==> name in labels0 || LinesFor(imgMap, anns, name) != [])
  }

  /** The processed names are the retained ones; the copies are the processed
      names present in the source and absent from `images/` at the start, each
      once; `images/` holds its old files and the copies. */
  ghost predicate ImagesSummarize(s: State, out0: set<string>, imgMap: map<int, ImageRecord>,
                                  sourceImages: set<string>, anns: seq<Annotation>)
  {
    && s.processed == RetainedNames(imgMap, anns)
    && (forall f :: f in s.outputImages <==> f in out0 || f in s.copies)
    && (forall f :: f in s.copies <==> f in s.processed && f in sourceImages && f !in out0)
    && NoDuplicates(s.copies)
  }

  // ---------------------------------------------------------------------------
  // One step

  /** A skipped annotation (missing image or unmapped category) changes nothing. */
  lemma StepSkips(s: State, imgMap: map<int, ImageRecord>, sourceImages: set<string>, a: Annotation)
    requires a.imageId !in imgMap || !(0 <= a.categoryId <= 4)
    ensures Step(s, imgMap, sourceImages, a) == Some(s)
  {
  }

  /** A retained annotation appends exactly one line, of its own category, at the
      end of its label file; every other label file is untouched. */
  lemma StepAppendsOneLine(s: State, imgMap: map<int, ImageRecord>, sourceImages: set<string>, a: Annotation)
    requires Retained(imgMap, a) && !DividesByZero(imgMap, a)
    ensures var r := Step(s, imgMap, sourceImages, a);
      && r.Some?
      && Contents(r.value.labels, LabelOf(imgMap, a)) == Contents(s.labels, LabelOf(imgMap, a)) + [LineOf(imgMap, a)]
      && LineOf(imgMap, a).classId == a.categoryId
      && r.value.labels.Keys == s.labels.Keys + {LabelOf(imgMap, a)}
      && (forall name :: name != LabelOf(imgMap, a) ==> Contents(r.value.labels, name) == Contents(s.labels, name))
  {
  }

  /** The image of a retained annotation is copied only if its name is new to the
      run, the source exists and the destination does not; the name is then
      recorded as processed either way. */
  lemma StepCopiesOnce(s: State, imgMap: map<int, ImageRecord>, sourceImages: set<string>, a: Annotation)
    requires Retained(imgMap, a) && !DividesByZero(imgMap, a)
    ensures var r := Step(s, imgMap, sourceImages, a); var f := imgMap[a.imageId].fileName;
      && r.Some?
      && r.value.processed == s.processed + {f}
      && (if f !in s.processed && f in sourceImages && f !in s.outputImages
          then r.value.copies == s.copies + [f] && r.value.outputImages == s.outputImages + {f}
          else r.value.copies == s.copies && r.value.outputImages == s.outputImages)
  {
  }

  /** A step only grows the state: label files keep their lines as a prefix,
      processed names and output images stay, earlier copies stay. */
  lemma StepGrows(s: State, imgMap: map<int, ImageRecord>, sourceImages: set<string>, a: Annotation)
    requires Step(s, imgMap, sourceImages, a).Some?
    ensures var t := Step(s, imgMap, sourceImages, a).value;
      && s.processed <= t.processed
      && s.outputImages <= t.outputImages
      && s.copies <= t.copies
      && s.labels.Keys <= t.labels.Keys
      && (forall name :: Contents(s.labels, name) <= Contents(t.labels, name))
  {
    if Retained(imgMap, a) {
      StepAppendsOneLine(s, imgMap, sourceImages, a);
      StepCopiesOnce(s, imgMap, sourceImages, a);
    } else {
      StepSkips(s, imgMap, sourceImages, a);
    }
  }

  // ---------------------------------------------------------------------------
  // Whole runs

  /** The run fails exactly when some retained annotation divides by zero, and
      then at the first such annotation. */
  lemma {:induction false} RunFailsAtFirstZeroDivision(s: State, imgMap: map<int, ImageRecord>,
                                                       sourceImages: set<string>, anns: seq<Annotation>)
    ensures Run(s, imgMap, sourceImages, anns).outcome == Completed <==> NoZeroDivision(imgMap, anns)
    ensures Run(s, imgMap, sourceImages, anns).outcome.ZeroDivisionAt? ==>
      var i := Run(s, imgMap, sourceImages, anns).outcome.at;
      && i < |anns|
      && DividesByZero(imgMap, anns[i])
      && NoZeroDivision(imgMap, anns[..i])
    decreases |anns|
  {
    if anns != [] {
      var init := anns[..|anns| - 1];
      RunFailsAtFirstZeroDivision(s, imgMap, sourceImages, init);
      assert forall k :: 0 <= k < |init| ==> init[k] == anns[k];
      var r := Run(s, imgMap, sourceImages, init);
      if r.outcome.ZeroDivisionAt? {
        assert anns[..r.outcome.at] == init[..r.outcome.at];
      } else {
        assert anns[..|anns| - 1] == init;
      }
    }
  }

  /** Once a run has failed, further annotations change nothing. */
  lemma {:induction false} RunStopsAfterFailure(s: State, imgMap: map<int, ImageRecord>,
                                                sourceImages: set<string>, anns: seq<Annotation>, n: nat)
    requires n <= |anns|
    requires Run(s, imgMap, sourceImages, anns[..n]).outcome.ZeroDivisionAt?
    ensures Run(s, imgMap, sourceImages, anns) == Run(s, imgMap, sourceImages, anns[..n])
    decreases |anns| - n
  {
    if n < |anns| {
      assert anns[..|anns| - 1][..n] == anns[..n];
      RunStopsAfterFailure(s, imgMap, sourceImages, anns[..|anns| - 1], n);
    } else {
      assert anns[..n] == anns;
    }
  }

  /** Appending one annotation to a sequence whose lines are known. */
  lemma LinesForSnoc(imgMap: map<int, ImageRecord>, init: seq<Annotation>, a: Annotation, name: string)
    requires NoZeroDivision(imgMap, init + [a])
    ensures NoZeroDivision(imgMap, init) && !DividesByZero(imgMap, a)
    ensures LinesFor(imgMap, init + [a], name)
      == LinesFor(imgMap, init, name)
         + (if Retained(imgMap, a) && LabelOf(imgMap, a) == name then [LineOf(imgMap, a)] else [])
  {
    var anns := init + [a];
    assert anns[..|anns| - 1] == init;
    assert anns[|init|] == a;
    assert forall k :: 0 <= k < |init| ==> init[k] == anns[k];
  }

  lemma RetainedNamesSnoc(imgMap: map<int, ImageRecord>, init: seq<Annotation>, a: Annotation)
    ensures RetainedNames(imgMap, init + [a])
      == RetainedNames(imgMap, init) + (if Retained(imgMap, a) then {imgMap[a.imageId].fileName} else {})
  {
    var anns := init + [a];
    assert anns[..|anns| - 1] == init;
  }

  /** The label file a retained annotation writes to, after one more annotation. */
  lemma SummaryStepTarget(s: State, t: State, labels0: map<string, seq<Line>>, imgMap: map<int, ImageRecord>,
                          sourceImages: set<string>, init: seq<Annotation>, a: Annotation)
    requires NoZeroDivision(imgMap, init + [a]) && NoZeroDivision(imgMap, init)
    requires Retained(imgMap, a) && !DividesByZero(imgMap, a)
    requires Contents(s.labels, LabelOf(imgMap, a)) == Contents(labels0, LabelOf(imgMap, a)) + LinesFor(imgMap, init, LabelOf(imgMap, a))
    requires Step(s, imgMap, sourceImages, a) == Some(t)
    ensures Contents(t.labels, LabelOf(imgMap, a)) == Contents(labels0, LabelOf(imgMap, a)) + LinesFor(imgMap, init + [a], LabelOf(imgMap, a))
    ensures LabelOf(imgMap, a) in t.labels
  {
    var name := LabelOf(imgMap, a);
    var line := LineOf(imgMap, a);
    assert Contents(t.labels, name) == Contents(s.labels, name) + [line] && name in t.labels by {
      StepAppendsOneLine(s, imgMap, sourceImages, a);
    }
    assert LinesFor(imgMap, init + [a], name) == LinesFor(imgMap, init, name) + [line] by {
      LinesForSnoc(imgMap, init, a, name);
    }
    AppendOneLine(Contents(t.labels, name), Contents(s.labels, name), Contents(labels0, name),
                  LinesFor(imgMap, init, name), LinesFor(imgMap, init + [a], name), line);
  }

  /** Appending a line to old lines followed by earlier ones is appending it to the earlier ones. */
  lemma AppendOneLine(after: seq<Line>, before: seq<Line>, old0: seq<Line>, earlier: seq<Line>, later: seq<Line>, line: Line)
    requires after == before + [line] && before == old0 + earlier && later == earlier + [line]
    ensures after == old0 + later
  {
  }

  /** Any other label file, after one more annotation. */
  lemma SummaryStepOther(s: State, t: State, labels0: map<string, seq<Line>>, imgMap: map<int, ImageRecord>,
                         sourceImages: set<string>, init: seq<Annotation>, a: Annotation, name: string)
    requires NoZeroDivision(imgMap, init + [a]) && NoZeroDivision(imgMap, init)
    requires !Retained(imgMap, a) || name != LabelOf(imgMap, a)
    requires Step(s, imgMap, sourceImages, a) == Some(t)
    ensures LinesFor(imgMap, init + [a], name) == LinesFor(imgMap, init, name)
    ensures Contents(t.labels, name) == Contents(s.labels, name)
    ensures name in t.labels <==> name in s.labels
  {
    assert LinesFor(imgMap, init + [a], name) == LinesFor(imgMap, init, name) by {
      LinesForSnoc(imgMap, init, a, name);
    }
    if Retained(imgMap, a) {
      assert Contents(t.labels, name) == Contents(s.labels, name) && (name in t.labels <==> name in s.labels) by {
        StepAppendsOneLine(s, imgMap, sourceImages, a);
      }
    } else {
      StepSkips(s, imgMap, sourceImages, a);
    }
  }

  /** The label part of the loop invariant survives one more annotation. */
  lemma SummaryStepLabels(s: State, t: State, labels0: map<string, seq<Line>>,
                          imgMap: map<int, ImageRecord>, sourceImages: set<string>, init: seq<Annotation>, a: Annotation)
    requires NoZeroDivision(imgMap, init + [a])
    requires NoZeroDivision(imgMap, init)
    requires LabelsSummarize(s.labels, labels0, imgMap, init)
    requires Step(s, imgMap, sourceImages, a) == Some(t)
    ensures LabelsSummarize(t.labels, labels0, imgMap, init + [a])
  {
    forall name
      ensures Contents(t.labels, name) == Contents(labels0, name) + LinesFor(imgMap, init + [a], name)
      ensures name in t.labels <==> name in labels0 || LinesFor(imgMap, init + [a], name) != []
    {
      if Retained(imgMap, a) && name == LabelOf(imgMap, a) {
        SummaryStepTarget(s, t, labels0, imgMap, sourceImages, init, a);
        assert LinesFor(imgMap, init + [a], name) != [];
      } else {
        SummaryStepOther(s, t, labels0, imgMap, sourceImages, init, a, name);
      }
    }
  }

  /** The image and copy part of the loop invariant survives one more annotation. */
  lemma SummaryStepImages(s: State, t: State, out0: set<string>,
                          imgMap: map<int, ImageRecord>, sourceImages: set<string>, init: seq<Annotation>, a: Annotation)
    requires ImagesSummarize(s, out0, imgMap, sourceImages, init)
    requires Step(s, imgMap, sourceImages, a) == Some(t)
    ensures ImagesSummarize(t, out0, imgMap, sourceImages, init + [a])
  {
    RetainedNamesSnoc(imgMap, init, a);
    if Retained(imgMap, a) {
      StepCopiesOnce(s, imgMap, sourceImages, a);
      var f := imgMap[a.imageId].fileName;
      if f !in s.processed && f in sourceImages && f !in s.outputImages {
        forall i, j | 0 <= i < j < |t.copies| ensures t.copies[i] != t.copies[j] {
          if j == |s.copies| { assert t.copies[i] in s.copies; }
        }
      }
    }
  }

  /** The invariant of the loop: a completed run from `Start(labels0, out0)` is
      summarised by the reference definitions. */
  lemma {:induction false} RunSummary(labels0: map<string, seq<Line>>, out0: set<string>,
                                      imgMap: map<int, ImageRecord>, sourceImages: set<string>, anns: seq<Annotation>)
    requires NoZeroDivision(imgMap, anns)
    ensures Run(Start(labels0, out0), imgMap, sourceImages, anns).outcome == Completed
    ensures LabelsSummarize(Run(Start(labels0, out0), imgMap, sourceImages, anns).state.labels, labels0, imgMap, anns)
    ensures ImagesSummarize(Run(Start(labels0, out0), imgMap, sourceImages, anns).state, out0, imgMap, sourceImages, anns)
    decreases |anns|
  {
    if anns == [] {
      assert LabelsSummarize(labels0, labels0, imgMap, anns);
    } else {
      var init := anns[..|anns| - 1];
      var a := anns[|anns| - 1];
      assert anns == init + [a];
      assert NoZeroDivision(imgMap, init) by {
        assert forall k :: 0 <= k < |init| ==> init[k] == anns[k];
      }
      RunSummary(labels0, out0, imgMap, sourceImages, init);
      var s := Run(Start(labels0, out0), imgMap, sourceImages, init).state;
      assert !DividesByZero(imgMap, a);
      var t := Step(s, imgMap, sourceImages, a).value;
      assert Run(Start(labels0, out0), imgMap, sourceImages, anns) == RunResult(t, Completed);
      SummaryStepLabels(s, t, labels0, imgMap, sourceImages, init, a);
      SummaryStepImages(s, t, out0, imgMap, sourceImages, init, a);
    }
  }

  /** After a completed run, `processed_images` is exactly the set of file names of
      the retained annotations' images. */
  lemma ProcessedIsRetainedNames(labels0: map<string, seq<Line>>, out0: set<string>,
                                 imgMap: map<int, ImageRecord>, sourceImages: set<string>, anns: seq<Annotation>)
    requires NoZeroDivision(imgMap, anns)
    ensures Run(Start(labels0, out0), imgMap, sourceImages, anns).state.processed == RetainedNames(imgMap, anns)
  {
    RunSummary(labels0, out0, imgMap, sourceImages, anns);
  }

  /** Across a completed run each image is copied at most once, and a name is
      copied iff it is retained, present in the source directory and absent from
      the output directory at the start; the output images are the old ones plus
      the copies. */
  lemma CopiesAtMostOnce(labels0: map<string, seq<Line>>, out0: set<string>,
                         imgMap: map<int, ImageRecord>, sourceImages: set<string>, anns: seq<Annotation>)
    requires NoZeroDivision(imgMap, anns)
    ensures var s := Run(Start(labels0, out0), imgMap, sourceImages, anns).state;
      && NoDuplicates(s.copies)
      && (forall f :: f in s.copies <==> f in RetainedNames(imgMap, anns) && f in sourceImages && f !in out0)
      && (forall f :: f in s.outputImages <==> f in out0 || f in s.copies)
  {
    RunSummary(labels0, out0, imgMap, sourceImages, anns);
  }

  /** Label files are append-only: after a completed run each holds its old lines
      followed by the lines of its annotations in annotation order. */
  lemma LabelsAppendInOrder(labels0: map<string, seq<Line>>, out0: set<string>,
                            imgMap: map<int, ImageRecord>, sourceImages: set<string>, anns: seq<Annotation>)
    requires NoZeroDivision(imgMap, anns)
    ensures var s := Run(Start(labels0, out0), imgMap, sourceImages, anns).state;
      forall name :: Contents(s.labels, name) == Contents(labels0, name) + LinesFor(imgMap, anns, name)
  {
    RunSummary(labels0, out0, imgMap, sourceImages, anns);
  }

  /** Lets a proof mention `s[0]` without a bounds check in a context where `s`
      is known to be empty, which an inline assertion cannot. */
  lemma HeadIsMember(s: seq<string>)
    ensures s != [] ==> s[0] in s
  {
  }

  /** Running the converter a second time over the same output tree appends every
      line again but copies no image. */
  lemma RerunDuplicatesLines(labels0: map<string, seq<Line>>, out0: set<string>,
                             imgMap: map<int, ImageRecord>, sourceImages: set<string>, anns: seq<Annotation>)
    requires NoZeroDivision(imgMap, anns)
    ensures var s1 := Run(Start(labels0, out0), imgMap, sourceImages, anns).state;
      var s2 := Run(Start(s1.labels, s1.outputImages), imgMap, sourceImages, anns).state;
      && (forall name :: Contents(s2.labels, name)
            == Contents(labels0, name) + LinesFor(imgMap, anns, name) + LinesFor(imgMap, anns, name))
      && s2.copies == []
      && s2.outputImages == s1.outputImages
  {
    var s1 := Run(Start(labels0, out0), imgMap, sourceImages, anns).state;
    RunSummary(labels0, out0, imgMap, sourceImages, anns);
    RunSummary(s1.labels, s1.outputImages, imgMap, sourceImages, anns);
    var s2 := Run(Start(s1.labels, s1.outputImages), imgMap, sourceImages, anns).state;
    forall f | f in RetainedNames(imgMap, anns) && f in sourceImages ensures f in s1.outputImages {
      if f !in out0 { assert f in s1.copies; }
    }
    HeadIsMember(s2.copies);
  }

  /** Over any run, stopped or not, the state only grows: `processed_images` and
      the output images keep every element, and each label file keeps its old
      lines as a prefix. */
  lemma {:induction false} RunGrows(s: State, imgMap: map<int, ImageRecord>,
                                    sourceImages: set<string>, anns: seq<Annotation>)
    ensures var t := Run(s, imgMap, sourceImages, anns).state;
      && s.processed <= t.processed
      && s.outputImages <= t.outputImages
      && s.copies <= t.copies
      && s.labels.Keys <= t.labels.Keys
      && (forall name :: Contents(s.labels, name) <= Contents(t.labels, name))
    decreases |anns|
  {
    if anns != [] {
      var init := anns[..|anns| - 1];
      RunGrows(s, imgMap, sourceImages, init);
      var r := Run(s, imgMap, sourceImages, init);
      if r.outcome.Completed? && Step(r.state, imgMap, sourceImages, anns[|anns| - 1]).Some? {
        StepGrows(r.state, imgMap, sourceImages, anns[|anns| - 1]);
      }
    }
  }

  // ---------------------------------------------------------------------------
  // The imperative converter

  /** The output root: label files under `labels/` and image files under `images/`. */
  class OutputTree {
    var labels: map<string, seq<Line>>
    var images: set<string>

    constructor (labels0: map<string, seq<Line>>, images0: set<string>)
      ensures labels == labels0 && images == images0
    {
      labels := labels0;
      images := images0;
    }

    /** `open(labels/name, 'a').write(line)`: append, never overwrite. */
    method AppendLine(name: string, line: Line)
      modifies this
      ensures labels == old(labels)[name := Contents(old(labels), name) + [line]]
      ensures images == old(images)
    {
      labels := labels[name := Contents(labels, name) + [line]];
    }

    /** `shutil.copy(src, images/fileName)`. */
    method CopyImage(fileName: string)
      modifies this
      ensures images == old(images) + {fileName}
      ensures labels == old(labels)
    {
      images := images + {fileName};
    }
  }

  /** The body of the loop (lines 28-62) against the output tree; `ok` is false
      when the division raises `ZeroDivisionError`. */
  method ProcessAnnotation(a: Annotation, imgMap: map<int, ImageRecord>, sourceImages: set<string>,
                           out: OutputTree, processed: set<string>, ghost copies: seq<string>)
    returns (ok: bool, processed': set<string>, ghost copies': seq<string>)
    modifies out
    ensures var r := Step(State(old(out.labels), old(out.images), processed, copies), imgMap, sourceImages, a);
      && ok == r.Some?
      && (ok ==> State(out.labels, out.images, processed', copies') == r.value)
      && (!ok ==> out.labels == old(out.labels) && out.images == old(out.images)
                  && processed' == processed && copies' == copies)
  {
    processed', copies' := processed, copies;
    ok := true;
    if a.imageId in imgMap {
      var info := imgMap[a.imageId];
      var cls := YoloClass(a.categoryId);
      if cls.Some? {
        if info.width == 0.0 || info.height == 0.0 {
          ok := false;
        } else {
          var line := ToLine(cls.value, a.bbox, info.width, info.height);
          out.AppendLine(LabelFileName(info.fileName), line);
          if info.fileName !in processed {
            if info.fileName in sourceImages && info.fileName !in out.images {
              out.CopyImage(info.fileName);
              copies' := copies + [info.fileName];
            }
            processed' := processed + {info.fileName};
          }
        }
      }
    }
  }

  /** `Run` over one more annotation. */
  lemma RunSnoc(s: State, imgMap: map<int, ImageRecord>, sourceImages: set<string>, anns: seq<Annotation>, i: nat)
    requires i < |anns|
    ensures var r := Run(s, imgMap, sourceImages, anns[..i]);
      Run(s, imgMap, sourceImages, anns[..i + 1])
      == if r.outcome.ZeroDivisionAt? then r
         else match Step(r.state, imgMap, sourceImages, anns[i])
           case None => RunResult(r.state, ZeroDivisionAt(i))
           case Some(t) => RunResult(t, Completed)
  {
    var p := anns[..i + 1];
    assert p[..|p| - 1] == anns[..i];
    assert p[|p| - 1] == anns[i];
  }

  /** A run stopped by `ZeroDivisionError` at annotation `i` leaves exactly the
      state of the completed run over the annotations before `i`: the lines and
      copies already made stay, each image copied at most once. */
  lemma StoppedRunIsPrefixRun(labels0: map<string, seq<Line>>, out0: set<string>,
                              imgMap: map<int, ImageRecord>, sourceImages: set<string>, anns: seq<Annotation>)
    requires Run(Start(labels0, out0), imgMap, sourceImages, anns).outcome.ZeroDivisionAt?
    ensures var r := Run(Start(labels0, out0), imgMap, sourceImages, anns); var i := r.outcome.at;
      && i < |anns|
      && DividesByZero(imgMap, anns[i])
      && NoZeroDivision(imgMap, anns[..i])
      && r.state == Run(Start(labels0, out0), imgMap, sourceImages, anns[..i]).state
      && NoDuplicates(r.state.copies)
      && (forall f :: f in r.state.copies <==> f in RetainedNames(imgMap, anns[..i]) && f in sourceImages && f !in out0)
      && (forall f :: f in r.state.outputImages <==> f in out0 || f in r.state.copies)
      && (forall name :: Contents(r.state.labels, name) == Contents(labels0, name) + LinesFor(imgMap, anns[..i], name))
  {
    var s0 := Start(labels0, out0);
    RunFailsAtFirstZeroDivision(s0, imgMap, sourceImages, anns);
    var i := Run(s0, imgMap, sourceImages, anns).outcome.at;
    RunFailsAtFirstZeroDivision(s0, imgMap, sourceImages, anns[..i]);
    RunSnoc(s0, imgMap, sourceImages, anns, i);
    RunStopsAfterFailure(s0, imgMap, sourceImages, anns, i + 1);
    CopiesAtMostOnce(labels0, out0, imgMap, sourceImages, anns[..i]);
    LabelsAppendInOrder(labels0, out0, imgMap, sourceImages, anns[..i]);
  }

  /** `coco_to_yolo` (lines 7-62) over an already-parsed document, a source image
      directory given by the names it holds, and the output tree. */
  method CocoToYolo(coco: Coco, sourceImages: set<string>, out: OutputTree)
    returns (outcome: Outcome, ghost copies: seq<string>)
    modifies out
    ensures var r := Run(Start(old(out.labels), old(out.images)), ImageMap(coco.images), sourceImages, coco.annotations);
      && outcome == r.outcome
      && out.labels == r.state.labels
      && out.images == r.state.outputImages
      && copies == r.state.copies
  {
    var imgMap := ImageMap(coco.images);
    ghost var start := Start(out.labels, out.images);
    var anns := coco.annotations;
    var processed: set<string> := {};
    copies := [];
    outcome := Completed;
    var i := 0;
    while i < |anns|
      invariant 0 <= i <= |anns|
      invariant Run(start, imgMap, sourceImages, anns[..i])
                == RunResult(State(out.labels, out.images, processed, copies), Completed)
    {
      RunSnoc(start, imgMap, sourceImages, anns, i);
      var ok;
      ok, processed, copies := ProcessAnnotation(anns[i], imgMap, sourceImages, out, processed, copies);
      if !ok {
        outcome := ZeroDivisionAt(i);
        RunStopsAfterFailure(start, imgMap, sourceImages, anns, i + 1);
        return;
      }
      i := i + 1;
    }
    assert anns[..i] == anns;
  }
}
