/** The contract every task model shares: a write-once identity (task name and
    model id) and the base part of `get_info()`. The abstract `process` is
    the dispatch of `Models.TaskModel`, whose only variants are the two
    concrete models, so no bare base model exists. */
module Base {
  import opened PyText
  import opened Runtime

  /** Set once by the constructor; a datatype value has no setter. */
  datatype ModelIdentity = ModelIdentity(taskName: string, modelId: string) {

    /** The `Task:` and `Model:` lines, each ended by a newline. */
    function BaseInfo(): string {
      "Task: " + taskName + "\nModel: " + modelId + "\n"
    }

    /** A variant's `get_info()`: the base lines followed by its own block. */
    function InfoWith(block: seq<string>): string {
      BaseInfo() + Terminated(block, '\n')
    }
  }

  predicate OneLine(s: string) {
    '\n' !in s
  }
  /** A string that holds no newline, fit to be one line of an info text. */
  type Line = s: string | '\n' !in s witness ""



  /** Reads the task name and model id back from the first two lines of an
      info text. */
  function ParseIdentity(info: string): Option<ModelIdentity> {
    var lines := Split(info, '\n');
    if |lines| >= 2 && StartsWith(lines[0], "Task: ") && StartsWith(lines[1], "Model: ")
    then Some(ModelIdentity(lines[0][6..], lines[1][7..]))
    else None
  }

  lemma BaseInfoTerminated(id: ModelIdentity)
    ensures id.BaseInfo() == Terminated(["Task: " + id.taskName, "Model: " + id.modelId], '\n')
  {
    var a, b := "Task: " + id.taskName, "Model: " + id.modelId;
    assert Terminated([a, b], '\n') == a + "\n" + Terminated([b], '\n');
    assert Terminated([b], '\n') == b + "\n" + Terminated([], '\n');
  }

  /** The info text is exactly the `Task:` line, the `Model:` line and the
      variant's block, one per line, with a final newline. */
  lemma InfoLines(id: ModelIdentity, block: seq<string>)
    requires OneLine(id.taskName) && OneLine(id.modelId) && Free(block, '\n')
    ensures Split(id.InfoWith(block), '\n')
         == ["Task: " + id.taskName, "Model: " + id.modelId] + block + [""]
  {
    var head := ["Task: " + id.taskName, "Model: " + id.modelId];
    BaseInfoTerminated(id);
    TerminatedAppend(head, block, '\n');
    assert Free(head + block, '\n') by {
      assert '\n' !in "Task: " && '\n' !in "Model: ";
    }
    SplitTerminated(head + block, '\n');
    assert head + block + [""] == head + (block + [""]);
  }

  /** The info text starts with two lines that carry the task name and the
      model id verbatim: they can be read back from it. */
  lemma ParseInfo(id: ModelIdentity, block: seq<string>)
    requires OneLine(id.taskName) && OneLine(id.modelId) && Free(block, '\n')
    ensures ParseIdentity(id.InfoWith(block)) == Some(id)
  {
    InfoLines(id, block);
    var lines := Split(id.InfoWith(block), '\n');
    assert lines[0] == "Task: " + id.taskName;
    assert lines[1] == "Model: " + id.modelId;
    assert lines[0][6..] == id.taskName;
    assert lines[1][7..] == id.modelId;
  }

  /** The base info alone is the case of an empty block. */
  lemma BaseInfoLines(id: ModelIdentity)
    requires OneLine(id.taskName) && OneLine(id.modelId)
    ensures Split(id.BaseInfo(), '\n') == ["Task: " + id.taskName, "Model: " + id.modelId, ""]
    ensures ParseIdentity(id.BaseInfo()) == Some(id)
  {
    assert id.InfoWith([]) == id.BaseInfo();
    InfoLines(id, []);
    ParseInfo(id, []);
  }
}
