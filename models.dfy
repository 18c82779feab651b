/** Polymorphic task models and the task registry. `TaskModel` has exactly
    the two concrete variants, each supplying `process` and `get_info`; the
    abstract base has no constructor of its own. */
module Models {
  import opened PyText
  import opened Runtime
  import opened Base
  import TS = TextSummarizer
  import IC = ImageClassifier

  /** What `process` may need from outside the model: the image loader and
      the score rendering. */
  datatype Environment = Environment(open: IC.ImageOpener, formatScore: IC.ScoreFormat)

  datatype TaskModel =
    | Summarizer(text: TS.TextSummarizerModel)
    | Classifier(vision: IC.ImageClassifierModel)
  {
    function Identity(): ModelIdentity {
      match this
      case Summarizer(m) => m.identity
      case Classifier(m) => m.identity
    }

    /** `model.process(data)` on a `str` argument, dispatched to the variant. */
    function Process(data: string, env: Environment): (r: Outcome<string>)
      ensures Summarizer? ==> r == text.Process(Str(data))
      ensures Classifier? ==> r == vision.Process(data, env.open, env.formatScore)
    {
      match this
      case Summarizer(m) => m.Process(Str(data))
      case Classifier(m) => m.Process(data, env.open, env.formatScore)
    }

    /** `model.get_info()`, dispatched to the variant. */
    function GetInfo(): string {
      match this
      case Summarizer(m) => m.GetInfo()
      case Classifier(m) => m.GetInfo()
    }
  }

  const TextTask := "Text Summarization"
  const ImageTask := "Image Classification"

  /** An insertion-ordered dictionary from task name to model. */
  type Registry = seq<(string, TaskModel)>

  function Keys(reg: Registry): (keys: seq<string>)
    ensures |keys| == |reg| && forall i :: 0 <= i < |reg| ==> keys[i] == reg[i].0
  {
    if reg == [] then [] else [reg[0].0] + Keys(reg[1..])
  }

  /** `models_by_task[task]`, which raises `KeyError` for a missing key. */
  function Lookup(reg: Registry, task: string): (r: Outcome<TaskModel>)
    ensures r.Ok? <==> task in Keys(reg)
    ensures r.Err? ==> r.error == MissingKey(task)
  {
    if reg == [] then Err(MissingKey(task))
    else if reg[0].0 == task then Ok(reg[0].1)
    else Lookup(reg[1..], task)
  }

  /** The dictionary `_build_models` assigns, in insertion order. */
  function BuildRegistry(text: TS.TextSummarizerModel, vision: IC.ImageClassifierModel): Registry {
    [(TextTask, Summarizer(text)), (ImageTask, Classifier(vision))]
  }

  /** The registry has exactly the two task names, text first, bound to the
      text model and to the vision model; any other name is missing. */
  lemma RegistryShape(text: TS.TextSummarizerModel, vision: IC.ImageClassifierModel, task: string)
    ensures Keys(BuildRegistry(text, vision)) == [TextTask, ImageTask]
    ensures Lookup(BuildRegistry(text, vision), TextTask) == Ok(Summarizer(text))
    ensures Lookup(BuildRegistry(text, vision), ImageTask) == Ok(Classifier(vision))
    ensures task != TextTask && task != ImageTask ==> Lookup(BuildRegistry(text, vision), task).Err?
  {
  }

  /** `_build_models`: the text model then the vision model, each with its
      default model id; the first load that raises makes the whole build
      raise that exception, and the vision model is not loaded when the text
      model fails. */
  function BuildModels(loadText: TS.Loader, loadVision: IC.Loader): (r: Outcome<Registry>)
    ensures TS.New(loadText).Err? ==> r == Err(TS.New(loadText).error)
    ensures TS.New(loadText).Ok? && IC.New(loadVision).Err? ==> r == Err(IC.New(loadVision).error)
    ensures TS.New(loadText).Ok? && IC.New(loadVision).Ok? ==>
      r == Ok(BuildRegistry(TS.New(loadText).value, IC.New(loadVision).value))
  {
    match TS.New(loadText)
    case Err(e) => Err(e)
    case Ok(text) =>
      match IC.New(loadVision)
      case Err(e) => Err(e)
      case Ok(vision) => Ok(BuildRegistry(text, vision))
  }

  /** Models built with the default ids describe themselves differently: the
      category line (the third line of `get_info()`) is the NLP line for the
      text task and the CV line for the image task. */
  lemma BuiltModelsInfo(loadText: TS.Loader, loadVision: IC.Loader)
    requires BuildModels(loadText, loadVision).Ok?
    ensures var reg := BuildModels(loadText, loadVision).value;
      Lookup(reg, TextTask).Ok? && Lookup(reg, ImageTask).Ok? &&
      Lookup(reg, TextTask).value.Identity() == ModelIdentity(TS.TaskName, TS.DefaultModelId) &&
      Lookup(reg, ImageTask).value.Identity() == ModelIdentity(IC.TaskName, IC.DefaultModelId) &&
      CategoryOf(Lookup(reg, TextTask).value) == Some(TS.CategoryLine) &&
      CategoryOf(Lookup(reg, ImageTask).value) == Some(IC.CategoryLine) &&
      TS.CategoryLine != IC.CategoryLine
  {
    var text, vision := TS.New(loadText).value, IC.New(loadVision).value;
    var reg := BuildRegistry(text, vision);
    assert BuildModels(loadText, loadVision).value == reg;
    RegistryShape(text, vision, TextTask);
    TS.DefaultInfoCategory(text);
    IC.DefaultInfoCategory(vision);
    assert CategoryOf(Summarizer(text)) == Some(TS.CategoryLine);
    assert CategoryOf(Classifier(vision)) == Some(IC.CategoryLine);
    assert |TS.CategoryLine| == 20 && |IC.CategoryLine| == 21;
  }

  /** The third line of a model's info text, where the category is given. */
  function CategoryOf(m: TaskModel): Option<string> {
    var lines := Split(m.GetInfo(), '\n');
    if |lines| > 2 then Some(lines[2]) else None
  }
}
