# Task models, action wrappers and run history of a Tkinter/HuggingFace front end

The application lets a user pick one of two tasks, text summarization or
image classification, and run the matching model on a piece of text or an
image file. This project models the part that is not widget code:

- the model contract: a write-once identity (task name, model id), the
  `get_info()` text, and the two concrete models with their `process`;
- the registry from user-visible task name to model;
- the `log_action` and `guard_ui_errors` wrappers and how the window stacks
  them;
- the history the window keeps, and the control flow of `_run_selected`.

How the model is built:

- `PyText` gives Python's `str.strip()`, `"\n".join`, `str.split`, `str(n)` and `repr(s)`.
- `Runtime` represents exceptions as values: `Outcome = Ok(v) | Err(e)`, where
  `e.message` is `str(e)`.
- `Base`, `TextSummarizer` and `ImageClassifier` are pure. A model is a
  datatype value holding its identity and its pipeline. The pipeline is a
  function value that the model's loader returned.
- `Models.TaskModel` has the two variants and nothing else. So the abstract
  `BaseModel` cannot be built, and every variant supplies `process` and
  `get_info`.
- In `Decorators`, a wrapped call is a function from a state to a `Run`. A
  `Run` holds the outcome, the events emitted in order, and the new state.
  `print`, `traceback.print_exc` and `showerror` are events in that list.
- `App.History` and `App.AppWindow` are classes with the fields the source
  updates in place. `AppWindow.RunSelected` is written step by step. Its
  contract says its effect equals `RunSelectedHandler`: the pure model of the
  decorated handler. The lemmas are proved about that handler.

Collaborators the core cannot see are parameters: function values inside a
model, or fields of `Models.Environment`, `App.World` and
`Decorators.MessageBox`. These are:

- `transformers.pipeline` (the two `Loader` types);
- the loaded pipelines;
- `Image.open(path).convert("RGB")`;
- `os.path.exists`;
- `messagebox.showerror`, whose result says whether the call raised;
- the `:.3f` rendering of a score.

The check for a missing image file is in `AppWindow._run_selected`
(gui/app_window.py:150-152); the classifier's `process` only opens the file
(models/image_classifier.py:12). Accordingly `ImageClassifierModel.Process`
propagates whatever the opener raises, and `RunSelectedBody` raises
`FileNotFoundError` before the model is reached.

Calling `get_info()` has no side effects, and two calls on the same model
give the same text. Both hold because `get_info()` is a Dafny function of an
immutable value. The identity is assigned only by `New`, because a datatype
field has no setter.

## Model

| member | source | states |
|---|---|---|
| `PyText.StripEmptyIff` | models/text_summarizer.py:11 | `s.strip()` is empty exactly when every character of `s` is whitespace in Python's sense |
| `PyText.StripEnds` | models/text_summarizer.py:11 | a stripped string neither starts nor ends with whitespace |
| `PyText.StripSpaceTail` | gui/app_window.py:145 | appending whitespace (the newline a Tk text box adds) does not change the stripped text |
| `PyText.SplitJoin` | models/image_classifier.py:17 | splitting `"\n".join(parts)` on newlines gives the parts back when none holds a newline |
| `PyText.JoinSplit` | models/image_classifier.py:17 | joining the result of a split gives the original string back |
| `PyText.SplitTerminated` | models/base.py:22 | splitting newline-terminated lines gives those lines and one final empty string |
| `PyText.ParseDecimalOfDecimal` | models/image_classifier.py:16 | reading back the digits of `str(n)` gives `n` |
| `Base.InfoLines` | models/base.py:20-22 | an info text is exactly the `Task: <task>` line, the `Model: <id>` line and the variant's block, one per line, with a final newline |
| `Base.ParseInfo` | models/base.py:20-22 | the task name and model id can be read back verbatim from the first two lines of any variant's info |
| `Base.BaseInfoLines` | models/base.py:20-22 | the base info alone is the two lines `Task: <task>` and `Model: <id>`, each ended by a newline, and gives the identity back |
| `TextSummarizer.New` | models/text_summarizer.py:5-8 | the task name is always `summarization`; the model id is the one given (default `sshleifer/distilbart-cnn-12-6`); the pipeline is the one loaded for that task and id; a failing load raises its own exception |
| `TextSummarizer.TextSummarizerModel.Process` | models/text_summarizer.py:10-14 | a non-`str` argument or whitespace-only text raises the `ValueError`, with a result independent of the pipeline; otherwise the pipeline receives the unstripped text with `max_length=80`, `min_length=25`, `do_sample=False`, and the result is the first output's `summary_text`; an empty output raises `IndexError` and a pipeline exception propagates |
| `TextSummarizer.InfoOfSummarizer` | models/text_summarizer.py:16-22 | `get_info()` is the base `Task:` and `Model:` lines followed by the four NLP lines; the third line is `Category: NLP (Text)`; the identity can be read back from it |
| `TextSummarizer.DefaultInfoCategory` | models/text_summarizer.py:16-19 | with the default id, the third info line is the NLP category line |
| `ImageClassifier.New` | models/image_classifier.py:6-8 | the task name is always `image-classification`; the model id is the one given (default `google/vit-base-patch16-224`); the pipeline is the one loaded; a failing load raises its own exception |
| `ImageClassifier.TopLines` | models/image_classifier.py:15-16 | there are `min(3, len(preds))` lines, and line i is `str(i+1) + ". " + label + " (" + score + ")"` for `preds[i]` |
| `ImageClassifier.ImageClassifierModel.Process` | models/image_classifier.py:10-17 | an exception raised when opening the image propagates and the pipeline is not consulted; an exception from the pipeline propagates too; otherwise the result is the rendering of the predictions; the path is not checked here |
| `ImageClassifier.RenderLines` | models/image_classifier.py:15-17 | the rendered text splits into exactly `min(3, len(preds))` lines with no padding; line i carries `preds[i]` in the pipeline's order and its rank reads back as i + 1, so the ranks run 1, 2, 3 |
| `ImageClassifier.RankLineRank` | models/image_classifier.py:16 | the leading digits of a rendered line spell its rank |
| `ImageClassifier.RenderEnd` | models/image_classifier.py:17 | no predictions render as the empty string; otherwise the text ends with `)` and never with a newline |
| `ImageClassifier.InfoOfClassifier` | models/image_classifier.py:19-25 | `get_info()` is the base `Task:` and `Model:` lines followed by the four CV lines; the third line is `Category: CV (Vision)`; the identity can be read back from it |
| `ImageClassifier.DefaultInfoCategory` | models/image_classifier.py:19-22 | with the default id, the third info line is the CV category line |
| `Models.TaskModel.Process` | models/base.py:15-18 | `process` on a task model runs the variant's own `process`: the summarizer gets the string, the classifier gets it as an image path |
| `PyText.Repr` | gui/app_window.py:142 | `repr(s)`, the text of `str(KeyError(s))`: it starts and ends with the same quote, which `ReprQuote` chooses |
| `PyText.EscapeAllLength` | gui/app_window.py:142 | escaping never shortens a string, and keeps its length exactly when no character needs an escape |
| `PyText.ReprVerbatimIff` | gui/app_window.py:142 | `repr(s)` is `s` between its quotes if and only if no character of `s` needs an escape inside those quotes |
| `PyText.ReprQuoteChoice` | gui/app_window.py:142 | with no backslash or control character, a string holding `'` and no `"` is written between double quotes, and one without `'` between single quotes |
| `Runtime.MissingKeyApostrophe` | gui/app_window.py:142 | the `KeyError` for the key `it's` reads `"it's"`, between double quotes |
| `Models.Lookup` | gui/app_window.py:142 | a lookup succeeds exactly when the name is a registry key, and otherwise raises `KeyError` whose text is the model's `repr(name)` |
| `Models.RegistryShape` | gui/app_window.py:39-42 | the registry keys are exactly `Text Summarization` then `Image Classification`, bound to the text model and to the vision model; any other name is missing |
| `Models.BuildModels` | gui/app_window.py:33-42 | the text model is built first and then the vision model, each with its default id; the first load that raises makes the build raise that exception; on success the result is the two-entry registry |
| `Models.BuiltModelsInfo` | gui/app_window.py:33-42 | the two built models carry their default identities, and their info texts differ in the category line: NLP for the text task, CV for the image task |
| `Decorators.Logged` | utils/decorators.py:7-11 | the log wrapper returns or raises exactly what the wrapped call does and keeps its state; "started" comes before all of the call's events; "completed" comes after them only when the call returned |
| `Decorators.LoggedCompletedIff` | utils/decorators.py:8-10 | the wrapper adds a "completed" line if and only if the wrapped call returned |
| `Decorators.Report` | utils/decorators.py:23-28 | on an exception, the traceback comes first, then exactly one `showerror("Error", str(e))` attempt, and then `[ERROR] <e>` only if that attempt raised |
| `Decorators.Guarded` | utils/decorators.py:19-29 | the guard never raises; on success it returns the call's value and emits nothing of its own; on an exception it returns `None` after the report; the state is the call's either way |
| `Decorators.ReportHasNoLogLine` | utils/decorators.py:24-28 | the error report has exactly one error-box attempt and holds no log line |
| `Decorators.LoggedGuarded` | utils/decorators.py:4-31 | with log outermost and guard inside, the stack never raises; "started" is first and "completed" is last, each exactly once even if the call raises; on success the value passes through; on an exception the result is `None` and one more error-box attempt appears |
| `App.History.constructor` | gui/app_window.py:12-13 | the history starts empty |
| `App.History.Add` | gui/app_window.py:15-16 | the entry is appended at the end and every earlier entry is unchanged |
| `App.History.Snapshot` | gui/app_window.py:18-20 | the snapshot is the entries in insertion order, as a value, and the history is unchanged |
| `App.RunSelectedBody` | gui/app_window.py:140-155 | the body emits no events; if it raises, the history and outputs are unchanged; if it returns, exactly one output and the task's history entry have been appended; a task name missing from the registry raises `KeyError` |
| `App.TextTaskRun` | gui/app_window.py:144-148 | the text task hands the stripped text to the text model and succeeds exactly when that model does; whitespace-only text raises the summarizer's `ValueError` and changes nothing |
| `App.ImageTaskRun` | gui/app_window.py:149-155 | an empty stripped path, or one that does not exist, raises `FileNotFoundError` whatever the model would do; otherwise the stripped path goes to the vision model, and the run succeeds exactly when that model does |
| `App.RunSelectedHandlerContract` | gui/app_window.py:137-155 | the decorated handler never raises; it logs "started" first and "completed" last, once each; the model's guard result is `None` exactly when the body raised (Python returns `None` on success too); in that case history and outputs are unchanged and the error box was attempted once with the exception's text; otherwise the history gained the task's entry |
| `App.RunSelectedHandlerSteps` | gui/app_window.py:137-139 | the decorated handler keeps the body's state; its result is the model's `Some` of the body's value, or `None` when the body raised; its events are "started", then the error report if the body raised, then "completed" |
| `App.AppWindow.ReportError` | utils/decorators.py:23-28 | the `except` branch appends exactly the guard's report to the trace |
| `App.AppWindow.constructor` | gui/app_window.py:24-52 | a new window has an empty history, the two-entry registry, and `Text Summarization` selected, which is a registry key |
| `App.AppWindow.CurrentModelInfo` | gui/app_window.py:122-124 | the lookup of the selected task succeeds, and the text shown is that model's `get_info()` |
| `App.AppWindow.SelectTask` | gui/app_window.py:119-120 | choosing a registry key selects it, keeps the window valid, and gives the new model's info |
| `App.AppWindow.WriteOutput` | gui/app_window.py:126-130 | the text is appended to the output area |
| `App.AppWindow.RunBody` | gui/app_window.py:140-155 | the step-by-step body has the outcome, history and outputs of `RunSelectedBody` on the window's current widget values |
| `App.AppWindow.RunSelected` | gui/app_window.py:137-155 | the decorated handler leaves the history, outputs and trace that `RunSelectedHandler` gives, and the selection stays valid |

## Left out

- Widget construction, layout and the toggling between text box and file picker (`_build_ui`, `_refresh_input`): interface plumbing. The widget values the handler reads are the `textInput`, `filePath` and `task` fields.
- `App.AppWindow.WriteOutput`: records the text passed in, not the Tk text widget's contents or scrolling.
- `_clear_output`, `_browse_img` and the file dialog: widget operations with no logic to state.
- `gui/model_info_frame.py` and `oop_explanations/explanations.py`: a widget and a constant text; `ModelInfoFrame` is not part of this model.
- Model loading, inference, image decoding and `os.path.exists`: foreign calls, so they are parameters with no behaviour assumed.
- `ImageClassifier.RankLine`: the `:.3f` rendering of a float score is an opaque `ScoreFormat` parameter, so the model does not state that scores show exactly three decimals.
- `Decorators.Guarded`: `Some(v)` stands for the returned `v`; a Python caller cannot tell a returned `None` (what `_run_selected` returns) from the guard's `None`, so the `Some`/`None` distinction in `Decorators.Guarded`, `App.RunSelectedHandlerContract` and `App.RunSelectedHandlerSteps` exists in the model only.
- `Decorators.Guarded`: only exceptions derived from `Exception` are modelled; `KeyboardInterrupt` and other `BaseException`s that escape the guard are not.
- `PyText.Repr`: characters above U+00FF that Python's `repr` escapes as `\uXXXX` or `\UXXXXXXXX` (those the Unicode database does not class as printable) are written as themselves; the Unicode database is not modelled. Up to U+00FF the quoting and escaping are Python's.
- `Models.Lookup`: the `KeyError` text is exact for keys whose characters are all at most U+00FF; see `PyText.Repr`.
- `Decorators.Report`: the traceback's text is not modelled, only that it is printed, with the exception it reports.
- `App.History.Snapshot`: Dafny fields are not private, so the name-mangled privacy of `__history` is not modelled; a sequence is a value, so the snapshot is as immutable as the tuple.
- The window's `__init__` is modelled with the two models already built (`Models.BuildModels` models their construction and its failure); a constructor in Dafny cannot raise.
- `functools.wraps`: copies metadata only.
