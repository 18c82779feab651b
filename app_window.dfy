/** The non-widget part of the application window: the history mixin, the
    task selection over the registry, and the `_run_selected` handler with
    its two decorators. */
module App {
  import opened PyText
  import opened Runtime
  import opened Models
  import opened Decorators
  import TS = TextSummarizer
  import IC = ImageClassifier

  /** `HistoryMixin`: an append-only list of action descriptions, read
      through a snapshot. */
  class History {
    var entries: seq<string>

    /** The history starts empty. */
    constructor ()
      ensures entries == []
    {
      entries := [];
    }

    /** `_add_history(entry)`: appends `entry`; every earlier entry stays. */
    method Add(entry: string)
      modifies this
      ensures entries == old(entries) + [entry]
    {
      entries := entries + [entry];
    }

    /** The `history` property: the entries in insertion order, as a value
        that later additions do not change. */
    method Snapshot() returns (snapshot: seq<string>)
      ensures snapshot == entries
    {
      snapshot := entries;
    }
  }

  /** What the handler's body changes: the history and the texts written to
      the output area, in order. */
  datatype Journal = Journal(history: seq<string>, outputs: seq<string>)

  /** The world outside the window when the handler runs. */
  datatype World = World(pathExists: string -> bool, env: Environment, messagebox: MessageBox)

  /** What the handler reads from the widgets: the selected task, the text
      box contents and the image path entry. */
  datatype Form = Form(task: string, text: string, path: string)

  const RunSelectedLabel := "Run Selected Task"
  const TextHistoryEntry := "Ran text summarization."
  const ImageHistoryEntry := "Ran image classification."
  const NoImage := Exception(FileNotFoundError, "Please choose a valid image file.")

  function HistoryEntry(task: string): string {
    if task == TextTask then TextHistoryEntry else ImageHistoryEntry
  }

  /** The undecorated `_run_selected`. It emits no events of its own. When
      it raises, nothing has changed; when it returns, exactly one output
      and then exactly one history entry, for the task that ran, have been
      added. A task name missing from the registry raises `KeyError`. */
  function RunSelectedBody(reg: Registry, form: Form, world: World, j: Journal): (r: Run<Journal, ()>)
    ensures r.events == []
    ensures r.outcome.Err? ==> r.state == j
    ensures r.outcome.Ok? ==>
      r.state.history == j.history + [HistoryEntry(form.task)] &&
      |r.state.outputs| == |j.outputs| + 1 && r.state.outputs[..|j.outputs|] == j.outputs
    ensures form.task !in Keys(reg) ==> r.outcome == Err(MissingKey(form.task))
  {
    match Lookup(reg, form.task)
    case Err(e) => Run(Err(e), [], j)
    case Ok(model) =>
      if form.task == TextTask then
        // a Tk text box returns its contents with a final newline
        var data := Strip(form.text + "\n");
        match model.Process(data, world.env)
        case Err(e) => Run(Err(e), [], j)
        case Ok(result) =>
          Run(Ok(()), [], Journal(j.history + [TextHistoryEntry], j.outputs + ["[Summary]\n" + result]))
      else
        var path := Strip(form.path);
        if path == [] || !world.pathExists(path) then Run(Err(NoImage), [], j)
        else
          match model.Process(path, world.env)
          case Err(e) => Run(Err(e), [], j)
          case Ok(result) =>
            Run(Ok(()), [], Journal(j.history + [ImageHistoryEntry], j.outputs + ["[Image Top-3]\n" + result]))
  }

  /** `_run_selected` as decorated: `log_action` outside `guard_ui_errors`. */
  function RunSelectedHandler(reg: Registry, form: Form, world: World): Action<Journal, Option<()>> {
    LogAction(RunSelectedLabel, GuardUiErrors(world.messagebox, j => RunSelectedBody(reg, form, world, j)))
  }

  /** The text task hands the stripped text box contents to the text model;
      blank contents raise the summarizer's `ValueError` and change nothing. */
  lemma TextTaskRun(text: TS.TextSummarizerModel, vision: IC.ImageClassifierModel, form: Form, world: World, j: Journal)
    requires form.task == TextTask
    ensures var r := RunSelectedBody(BuildRegistry(text, vision), form, world, j);
      var p := text.Process(Str(Strip(form.text)));
      (r.outcome.Ok? <==> p.Ok?) &&
      (p.Err? ==> r.outcome == Err(p.error)) &&
      (p.Ok? ==> r.state.outputs == j.outputs + ["[Summary]\n" + p.value]) &&
      (AllSpace(form.text) ==> r.outcome == Err(TS.InvalidInput) && r.state == j)
  {
    RegistryShape(text, vision, form.task);
    StripSpaceTail(form.text, "\n");
    StripEmptyIff(form.text);
    StripEmptyIff(Strip(form.text));
  }

  /** The image task checks the stripped path before the model is reached:
      an empty path or one that does not exist raises `FileNotFoundError`
      whatever the model and loader would do; otherwise the stripped path is
      handed to the vision model. */
  lemma ImageTaskRun(text: TS.TextSummarizerModel, vision: IC.ImageClassifierModel, form: Form, world: World, j: Journal)
    requires form.task == ImageTask
    ensures var r := RunSelectedBody(BuildRegistry(text, vision), form, world, j);
      var path := Strip(form.path);
      ((path == [] || !world.pathExists(path)) ==> r == Run(Err(NoImage), [], j)) &&
      (path != [] && world.pathExists(path) ==>
        var p := vision.Process(path, world.env.open, world.env.formatScore);
        (r.outcome.Ok? <==> p.Ok?) &&
        (p.Err? ==> r.outcome == Err(p.error)) &&
        (p.Ok? ==> r.state.outputs == j.outputs + ["[Image Top-3]\n" + p.value]))
  {
    RegistryShape(text, vision, form.task);
    assert |TextTask| != |ImageTask|;
  }

  /** The decorated handler never raises; it logs "started" first and
      "completed" last, once each; the result is the guard's `None` exactly
      when the body raised (a tag of the model: the body returns `None`
      too, so the Python caller sees `None` either way), in which case the
      history and outputs are as before and the error box was attempted
      once with the exception's text; otherwise the history grew by the
      task's entry. */
  lemma RunSelectedHandlerContract(reg: Registry, form: Form, world: World, j: Journal)
    ensures var r := RunSelectedHandler(reg, form, world)(j);
      var b := RunSelectedBody(reg, form, world, j);
      r.outcome.Ok? &&
      r.events[0] == Print(StartedLine(RunSelectedLabel)) &&
      r.events[|r.events| - 1] == Print(CompletedLine(RunSelectedLabel)) &&
      Count(r.events, Print(StartedLine(RunSelectedLabel))) == 1 &&
      Count(r.events, Print(CompletedLine(RunSelectedLabel))) == 1 &&
      (r.outcome.value.None? <==> b.outcome.Err?) &&
      (b.outcome.Err? ==>
        r.state == j && Count(r.events, ShowError("Error", b.outcome.error.message)) == 1) &&
      (b.outcome.Ok? ==> r.state.history == j.history + [HistoryEntry(form.task)])
  {
    var body: Action<Journal, ()> := j' => RunSelectedBody(reg, form, world, j');
    assert body(j) == RunSelectedBody(reg, form, world, j);
    LoggedGuarded(RunSelectedLabel, world.messagebox, body, j);
  }

  /** The decorated handler, unfolded: the body's state, `Some` of its value
      or `None`, and its events bracketed by the two log lines with the
      error report in between when the body raised. */
  lemma RunSelectedHandlerSteps(reg: Registry, form: Form, world: World, j: Journal)
    ensures var r := RunSelectedHandler(reg, form, world)(j);
      var b := RunSelectedBody(reg, form, world, j);
      r.state == b.state &&
      r.outcome == Ok(if b.outcome.Ok? then Some(b.outcome.value) else None) &&
      r.events == [Print(StartedLine(RunSelectedLabel))]
        + (if b.outcome.Ok? then [] else Report(world.messagebox, b.outcome.error))
        + [Print(CompletedLine(RunSelectedLabel))]
  {
    var body: Action<Journal, ()> := j' => RunSelectedBody(reg, form, world, j');
    assert body(j) == RunSelectedBody(reg, form, world, j);
    var g := GuardUiErrors(world.messagebox, body);
    assert g(j) == Guarded(world.messagebox, body, j);
  }

  /** The window, without its widgets. */
  class AppWindow {
    /** `models_by_task`, built once. */
    const registry: Registry
    const hist: History
    /** The combobox selection, `task_var`. */
    var task: string
    /** The text box contents. */
    var textInput: string
    /** `file_path_var`. */
    var filePath: string
    /** The texts written to the output area, in order. */
    var outputs: seq<string>
    /** What has been printed and shown, in order. */
    var trace: seq<Event>

    /** The selection is always one of the registry's task names (the
        combobox is read-only over them), so every lookup succeeds. */
    ghost predicate Valid()
      reads this
    {
      task in Keys(registry)
    }

    function CurrentForm(): Form
      reads this
    {
      Form(task, textInput, filePath)
    }

    /** `__init__` with the models `_build_models` created: an empty
        history, the registry, and "Text Summarization" selected. */
    constructor (text: TS.TextSummarizerModel, vision: IC.ImageClassifierModel)
      ensures Valid()
      ensures registry == BuildRegistry(text, vision) && task == TextTask
      ensures fresh(hist) && hist.entries == []
      ensures textInput == "" && filePath == "" && outputs == [] && trace == []
    {
      hist := new History();
      registry := BuildRegistry(text, vision);
      task := TextTask;
      textInput, filePath := "", "";
      outputs, trace := [], [];
      RegistryShape(text, vision, TextTask);
    }

    /** `_show_current_model_info`: the info text of the selected model. */
    method CurrentModelInfo() returns (info: string)
      requires Valid()
      ensures Lookup(registry, task).Ok? && info == Lookup(registry, task).value.GetInfo()
    {
      var model := Lookup(registry, task);
      info := model.value.GetInfo();
    }

    /** `_on_task_change` after the user picks `name` from the combobox. */
    method SelectTask(name: string) returns (info: string)
      requires Valid() && name in Keys(registry)
      modifies this`task
      ensures Valid() && task == name
      ensures Lookup(registry, task).Ok? && info == Lookup(registry, task).value.GetInfo()
    {
      task := name;
      info := CurrentModelInfo();
    }

    /** `_write_output(text)`. */
    method WriteOutput(text: string)
      modifies this`outputs
      ensures outputs == old(outputs) + [text]
    {
      outputs := outputs + [text];
    }

    /** The body of `_run_selected`, step by step. */
    method RunBody(world: World) returns (outcome: Outcome<()>)
      requires Valid()
      modifies this`outputs, hist
      ensures var r := RunSelectedBody(registry, CurrentForm(), world, Journal(old(hist.entries), old(outputs)));
        outcome == r.outcome && hist.entries == r.state.history && outputs == r.state.outputs
    {
      var model := Lookup(registry, task);
      if task == TextTask {
        var data := Strip(textInput + "\n");
        var result := model.value.Process(data, world.env);
        if result.Err? {
          return Err(result.error);
        }
        WriteOutput("[Summary]\n" + result.value);
        hist.Add(TextHistoryEntry);
      } else {
        var path := Strip(filePath);
        if path == [] || !world.pathExists(path) {
          return Err(NoImage);
        }
        var result := model.value.Process(path, world.env);
        if result.Err? {
          return Err(result.error);
        }
        WriteOutput("[Image Top-3]\n" + result.value);
        hist.Add(ImageHistoryEntry);
      }
      outcome := Ok(());
    }

    /** The `except` branch of the guard: dump the traceback, attempt the
        error box once, and print the fallback line if that attempt raises. */
    method ReportError(mb: MessageBox, e: Exception)
      modifies this`trace
      ensures trace == old(trace) + Report(mb, e)
    {
      trace := trace + [PrintTraceback(e)];
      var shown := mb.showError("Error", e.message);
      trace := trace + [ShowError("Error", e.message)];
      if !shown {
        trace := trace + [Print(FallbackLine(e))];
      }
    }

    /** `_run_selected` as the button calls it, with both decorators: the
        new history, outputs and trace are those of `RunSelectedHandler`. */
    method RunSelected(world: World) returns (result: Option<()>)
      requires Valid()
      modifies this`outputs, this`trace, hist
      ensures Valid()
      ensures var r := RunSelectedHandler(registry, CurrentForm(), world)(Journal(old(hist.entries), old(outputs)));
        r.outcome == Ok(result) && hist.entries == r.state.history && outputs == r.state.outputs &&
        trace == old(trace) + r.events
    {
      ghost var j := Journal(hist.entries, outputs);
      RunSelectedHandlerSteps(registry, CurrentForm(), world, j);
      ghost var before := trace;

      trace := trace + [Print(StartedLine(RunSelectedLabel))];
      ghost var started := trace;
      var outcome := RunBody(world);
      match outcome {
        case Ok(v) =>
          result := Some(v);
        case Err(e) =>
          ReportError(world.messagebox, e);
          result := None;
      }
      ghost var own := trace[|started|..];
      assert trace == started + own;
      assert own == if outcome.Ok? then [] else Report(world.messagebox, outcome.error);
      trace := trace + [Print(CompletedLine(RunSelectedLabel))];
      assert trace == before + ([Print(StartedLine(RunSelectedLabel))] + own + [Print(CompletedLine(RunSelectedLabel))]);
    }
  }
}
