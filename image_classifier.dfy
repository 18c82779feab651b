/** The image-classification model. The pipeline, the image loader and the
    rendering of a score are opaque function values. */
module ImageClassifier {
  import opened PyText
  import opened Runtime
  import opened Base

  const TaskName := "image-classification"
  const DefaultModelId: Line := "google/vit-base-patch16-224"

  /** A decoded RGB image, `Image.open(path).convert("RGB")`. */
  type Image

  /** One element of the pipeline's output: its `label` key (`className`) and its `score` key. */
  datatype Prediction = Prediction(className: string, score: real)

  /** `self._pipe(img)`: the ranked predictions; it may raise. */
  type Pipe = Image -> Outcome<seq<Prediction>>

  /** `transformers.pipeline(task, model=model_id)`; it may raise. */
  type Loader = (string, string) -> Outcome<Pipe>

  /** `Image.open(path).convert("RGB")`; it raises for a missing or unreadable file. */
  type ImageOpener = string -> Outcome<Image>

  /** `f"{score:.3f}"`. */
  type ScoreFormat = real -> string

  const CategoryLine: Line := "Category: CV (Vision)"
  /** The source's description line; written as two literals, since the
      verifier sees that a concatenation of short literals holds no newline
      but not that one long literal does. */
  const DescriptionLine: Line := "Description: " + "Predicts classes for an input image."
  const OutputLine: Line := "Output: Top predictions with scores"

  const InputLine: Line := "Input: Image file path"

  /** The lines `get_info()` adds to the base info. */
  const CvBlock: seq<Line> := [CategoryLine, DescriptionLine, InputLine, OutputLine]

  /** Line `rank` of the rendering: `f"{rank}. {label} ({score:.3f})"`. */
  function RankLine(rank: nat, p: Prediction, fmt: ScoreFormat): string {
    Decimal(rank) + ". " + p.className + " (" + fmt(p.score) + ")"
  }

  function Min(a: nat, b: nat): nat {
    if a <= b then a else b
  }

  /** The lines for `preds[:3]`, numbered from 1 in the pipeline's order. */
  function TopLines(preds: seq<Prediction>, fmt: ScoreFormat): (lines: seq<string>)
    ensures |lines| == Min(3, |preds|)
    ensures forall i :: 0 <= i < |lines| ==> lines[i] == RankLine(i + 1, preds[i], fmt)
  {
    var top := preds[..Min(3, |preds|)];
    seq(|top|, i requires 0 <= i < |top| => RankLine(i + 1, top[i], fmt))
  }

  /** `"\n".join(lines)` over the top-3 lines. */
  function Render(preds: seq<Prediction>, fmt: ScoreFormat): string {
    Join(TopLines(preds, fmt), '\n')
  }

  datatype ImageClassifierModel = ImageClassifierModel(identity: ModelIdentity, pipe: Pipe) {

    /** `process(path)`: what opening the image raises, or what the pipeline
        raises, propagates unchanged (the pipeline is not reached when the
        image cannot be opened); otherwise the rendering of its top three
        predictions. No check of the path is made here. */
    function Process(path: string, open: ImageOpener, fmt: ScoreFormat): (r: Outcome<string>)
      ensures open(path).Err? ==> r == Err(open(path).error)
      ensures open(path).Ok? && pipe(open(path).value).Err? ==> r == Err(pipe(open(path).value).error)
      ensures open(path).Ok? && pipe(open(path).value).Ok? ==> r == Ok(Render(pipe(open(path).value).value, fmt))
    {
      match open(path)
      case Err(e) => Err(e)
      case Ok(img) =>
        match pipe(img)
        case Err(e) => Err(e)
        case Ok(preds) => Ok(Render(preds, fmt))
    }

    /** `get_info()`: the base info followed by the CV block. */
    function GetInfo(): string {
      identity.InfoWith(CvBlock)
    }
  }

  /** `ImageClassifierModel(model_id)`: the task name is always
      `image-classification`, the model id is the one given, and the
      pipeline is loaded for that task and id; a failing load raises out of
      the constructor. */
  function New(load: Loader, modelId: string := DefaultModelId): (r: Outcome<ImageClassifierModel>)
    ensures r.Ok? <==> load(TaskName, modelId).Ok?
    ensures r.Ok? ==>
      r.value.identity == ModelIdentity(TaskName, modelId) && r.value.pipe == load(TaskName, modelId).value
    ensures r.Err? ==> r.error == load(TaskName, modelId).error
  {
    match load(TaskName, modelId)
    case Ok(pipe) => Ok(ImageClassifierModel(ModelIdentity(TaskName, modelId), pipe))
    case Err(e) => Err(e)
  }

  /** The label and score texts of the predictions that are shown hold no newline. */
  predicate ShownOneLine(preds: seq<Prediction>, fmt: ScoreFormat) {
    forall i :: 0 <= i < Min(3, |preds|) ==> OneLine(preds[i].className) && OneLine(fmt(preds[i].score))
  }

  /** The rank of a rendered line: the number its leading digits spell. */
  function RankOf(line: string): nat {
    ParseDecimal(LeadingDigits(line))
  }

  lemma RankLineRank(rank: nat, p: Prediction, fmt: ScoreFormat)
    ensures RankOf(RankLine(rank, p, fmt)) == rank
  {
    var rest := ". " + p.className + " (" + fmt(p.score) + ")";
    assert RankLine(rank, p, fmt) == Decimal(rank) + rest;
    LeadingDigitsOf(Decimal(rank), rest);
    ParseDecimalOfDecimal(rank);
  }

  /** The rendering has one line per shown prediction, `min(3, len(preds))`
      of them with no padding; line i is ranked i + 1 and carries the label
      and score of `preds[i]`, so the pipeline's order is kept. */
  lemma RenderLines(preds: seq<Prediction>, fmt: ScoreFormat)
    requires preds != [] && ShownOneLine(preds, fmt)
    ensures var lines := Split(Render(preds, fmt), '\n');
      |lines| == Min(3, |preds|) &&
      (forall i :: 0 <= i < |lines| ==> lines[i] == RankLine(i + 1, preds[i], fmt)) &&
      (forall i :: 0 <= i < |lines| ==> RankOf(lines[i]) == i + 1)
  {
    var lines := TopLines(preds, fmt);
    forall i | 0 <= i < |lines| ensures OneLine(lines[i]) && RankOf(lines[i]) == i + 1 {
      RankLineRank(i + 1, preds[i], fmt);
    }
    SplitJoin(lines, '\n');
  }

  /** No predictions render as the empty string; otherwise the rendering
      ends with the closing parenthesis of its last line, never a newline. */
  lemma RenderEnd(preds: seq<Prediction>, fmt: ScoreFormat)
    ensures preds == [] ==> Render(preds, fmt) == ""
    ensures preds != [] ==> var r := Render(preds, fmt); r != [] && r[|r| - 1] == ')'
  {
    var lines := TopLines(preds, fmt);
    if preds != [] {
      JoinEndsWithLast(lines, '\n');
    }
  }

  lemma {:induction false} JoinEndsWithLast(parts: seq<string>, sep: char)
    requires parts != [] && forall k :: 0 <= k < |parts| ==> parts[k] != [] && parts[k][|parts[k]| - 1] == ')'
    ensures var r := Join(parts, sep); r != [] && r[|r| - 1] == ')'
  {
    if |parts| > 1 {
      JoinEndsWithLast(parts[1..], sep);
    }
  }

  /** The info text is the `Task: image-classification` line, the `Model:`
      line and the four CV lines, and the identity can be read back from it. */
  lemma InfoOfClassifier(m: ImageClassifierModel)
    requires m.identity.taskName == TaskName && OneLine(m.identity.modelId)
    ensures Split(m.GetInfo(), '\n') ==
      ["Task: " + TaskName, "Model: " + m.identity.modelId] + CvBlock + [""]
    ensures Split(m.GetInfo(), '\n')[2] == CategoryLine
    ensures ParseIdentity(m.GetInfo()) == Some(m.identity)
  {
    InfoLines(m.identity, CvBlock);
    ParseInfo(m.identity, CvBlock);
  }


  /** A model built with the default id has the category line as the third info line. */
  lemma DefaultInfoCategory(m: ImageClassifierModel)
    requires m.identity == ModelIdentity(TaskName, DefaultModelId)
    ensures var lines := Split(m.GetInfo(), '\n'); |lines| > 2 && lines[2] == CategoryLine
  {
    InfoOfClassifier(m);
  }
}
