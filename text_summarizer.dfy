/** The text-summarization model. Its pipeline is an opaque function value
    obtained from a loader when the model is built. */
module TextSummarizer {
  import opened PyText
  import opened Runtime
  import opened Base

  const TaskName := "summarization"
  const DefaultModelId: Line := "sshleifer/distilbart-cnn-12-6"

  /** The keyword arguments `process` passes to the pipeline. */
  datatype GenerationArgs = GenerationArgs(maxLength: nat, minLength: nat, doSample: bool)

  const SummaryArgs := GenerationArgs(80, 25, false)

  /** One element of the pipeline's output list, with its `summary_text` key. */
  datatype Summary = Summary(summaryText: string)

  /** `self._pipe(text, max_length=…, min_length=…, do_sample=…)`; it may raise. */
  type Pipe = (string, GenerationArgs) -> Outcome<seq<Summary>>

  /** `transformers.pipeline(task, model=model_id)`; it may raise. */
  type Loader = (string, string) -> Outcome<Pipe>

  const InvalidInput := Exception(ValueError, "Expected non-empty text for summarization.")

  const CategoryLine: Line := "Category: NLP (Text)"
  /** The source's description line; written as two literals, since the
      verifier sees that a concatenation of short literals holds no newline
      but not that one long literal does. */
  const DescriptionLine: Line := "Description: " + "Summarizes long text into concise form."

  const InputLine: Line := "Input: Plain text"
  const OutputLine: Line := "Output: Summary text"

  /** The lines `get_info()` adds to the base info. */
  const NlpBlock: seq<Line> := [CategoryLine, DescriptionLine, InputLine, OutputLine]

  datatype TextSummarizerModel = TextSummarizerModel(identity: ModelIdentity, pipe: Pipe) {

    /** `process(data)`: rejects anything but a string with non-blank
        content before the pipeline is reached (the result then does not
        depend on the pipeline at all); otherwise hands the unstripped text
        and the fixed generation bounds to the pipeline and returns the
        `summary_text` of its first output, propagating what it raises. */
    function Process(data: Value): (r: Outcome<string>)
      ensures data.NotStr? ==> r == Err(InvalidInput)
      ensures data.Str? && AllSpace(data.text) ==> r == Err(InvalidInput)
      ensures data.Str? && !AllSpace(data.text) ==>
        match pipe(data.text, SummaryArgs)
        case Err(e) => r == Err(e)
        case Ok(out) => r == (if out == [] then Err(IndexOutOfRange) else Ok(out[0].summaryText))
    {
      if data.NotStr? || Strip(data.text) == [] then
        StripEmptyIff(if data.Str? then data.text else "");
        Err(InvalidInput)
      else
        StripEmptyIff(data.text);
        match pipe(data.text, SummaryArgs)
        case Err(e) => Err(e)
        case Ok(out) => if |out| == 0 then Err(IndexOutOfRange) else Ok(out[0].summaryText)
    }

    /** `get_info()`: the base info followed by the NLP block. */
    function GetInfo(): string {
      identity.InfoWith(NlpBlock)
    }
  }

  /** `TextSummarizerModel(model_id)`: the task name is always
      `summarization`, the model id is the one given, and the pipeline is
      loaded for that task and id; a failing load raises out of the
      constructor. */
  function New(load: Loader, modelId: string := DefaultModelId): (r: Outcome<TextSummarizerModel>)
    ensures r.Ok? <==> load(TaskName, modelId).Ok?
    ensures r.Ok? ==>
      r.value.identity == ModelIdentity(TaskName, modelId) && r.value.pipe == load(TaskName, modelId).value
    ensures r.Err? ==> r.error == load(TaskName, modelId).error
  {
    match load(TaskName, modelId)
    case Ok(pipe) => Ok(TextSummarizerModel(ModelIdentity(TaskName, modelId), pipe))
    case Err(e) => Err(e)
  }

  /** The info text is the `Task: summarization` line, the `Model:` line and
      the four NLP lines, and the identity can be read back from it. */
  lemma InfoOfSummarizer(m: TextSummarizerModel)
    requires m.identity.taskName == TaskName && OneLine(m.identity.modelId)
    ensures Split(m.GetInfo(), '\n') ==
      ["Task: " + TaskName, "Model: " + m.identity.modelId] + NlpBlock + [""]
    ensures Split(m.GetInfo(), '\n')[2] == CategoryLine
    ensures ParseIdentity(m.GetInfo()) == Some(m.identity)
  {
    InfoLines(m.identity, NlpBlock);
    ParseInfo(m.identity, NlpBlock);
  }


  /** A model built with the default id has the category line as the third info line. */
  lemma DefaultInfoCategory(m: TextSummarizerModel)
    requires m.identity == ModelIdentity(TaskName, DefaultModelId)
    ensures var lines := Split(m.GetInfo(), '\n'); |lines| > 2 && lines[2] == CategoryLine
  {
    InfoOfSummarizer(m);
  }
}
