/** The two action wrappers. A wrapped call is a function from a state to a
    `Run`: what it returned or raised, the events it emitted in order (lines
    printed, tracebacks dumped, message boxes attempted) and the new state.
    A call that raises keeps whatever state changes it made before raising. */
module Decorators {
  import opened Runtime

  datatype Event =
    | Print(line: string)                       // print(...) to stdout
    | PrintTraceback(error: Exception)           // traceback.print_exc()
    | ShowError(title: string, message: string)  // an attempted messagebox.showerror(...)

  datatype Run<S, T> = Run(outcome: Outcome<T>, events: seq<Event>, state: S)

  type Action<!S, T> = S -> Run<S, T>

  /** The message-box module: `showError(title, message)` is false when the
      call itself raises (no display, for one). */
  datatype MessageBox = MessageBox(showError: (string, string) -> bool)

  function StartedLine(name: string): string {
    "[LOG] " + name + " started."
  }

  function CompletedLine(name: string): string {
    "[LOG] " + name + " completed."
  }

  function FallbackLine(e: Exception): string {
    "[ERROR] " + e.message
  }

  /** The wrapper of `log_action(name)(f)` applied to `s`: it passes the
      result, the exception and the state of `f` through untouched, prints
      the "started" line before everything `f` emits, and prints the
      "completed" line after it only when `f` returned. */
  function Logged<S, T>(name: string, f: Action<S, T>, s: S): (r: Run<S, T>)
    ensures r.outcome == f(s).outcome && r.state == f(s).state
    ensures |r.events| >= 1 && r.events[0] == Print(StartedLine(name))
    ensures r.events[1..] == f(s).events + (if f(s).outcome.Ok? then [Print(CompletedLine(name))] else [])
  {
    var inner := f(s);
    var after := if inner.outcome.Ok? then [Print(CompletedLine(name))] else [];
    Run(inner.outcome, [Print(StartedLine(name))] + inner.events + after, inner.state)
  }

  /** `log_action(name)`: the decorator applied to `f`. */
  function LogAction<S, T>(name: string, f: Action<S, T>): Action<S, T> {
    s => Logged(name, f, s)
  }

  /** What the guard emits for an exception `e`: the traceback, one attempt
      at the error box, and, only when that attempt raises, the fallback line. */
  function Report(mb: MessageBox, e: Exception): (events: seq<Event>)
    ensures |events| >= 2 && events[0] == PrintTraceback(e) && events[1] == ShowError("Error", e.message)
    ensures events[2..] == if mb.showError("Error", e.message) then [] else [Print(FallbackLine(e))]
  {
    [PrintTraceback(e), ShowError("Error", e.message)]
      + (if mb.showError("Error", e.message) then [] else [Print(FallbackLine(e))])
  }

  /** The wrapper of `guard_ui_errors(mb)(f)` applied to `s`: it never
      raises. When `f` returns `v` it returns `v` (as `Some(v)`) and emits
      nothing of its own; when `f` raises `e` it returns `None` after the
      report of `e`. The state is that of `f` either way. `Some` is the
      model's tag: in Python a returned `None` and the guard's `None` are
      the same value. */
  function Guarded<S, T>(mb: MessageBox, f: Action<S, T>, s: S): (r: Run<S, Option<T>>)
    ensures r.outcome.Ok? && r.state == f(s).state
    ensures f(s).outcome.Ok? ==> r.outcome.value == Some(f(s).outcome.value) && r.events == f(s).events
    ensures f(s).outcome.Err? ==> r.outcome.value == None && r.events == f(s).events + Report(mb, f(s).outcome.error)
  {
    var inner := f(s);
    match inner.outcome
    case Ok(v) => Run(Ok(Some(v)), inner.events, inner.state)
    case Err(e) => Run(Ok(None), inner.events + Report(mb, e), inner.state)
  }

  /** `guard_ui_errors(mb)`: the decorator applied to `f`. */
  function GuardUiErrors<S, T>(mb: MessageBox, f: Action<S, T>): Action<S, Option<T>> {
    s => Guarded(mb, f, s)
  }

  /** How many times `e` occurs in `events`. */
  function Count(events: seq<Event>, e: Event): nat {
    if events == [] then 0 else (if events[0] == e then 1 else 0) + Count(events[1..], e)
  }

  lemma {:induction false} CountAppend(a: seq<Event>, b: seq<Event>, e: Event)
    ensures Count(a + b, e) == Count(a, e) + Count(b, e)
  {
    if a == [] {
      assert a + b == b;
    } else {
      CountAppend(a[1..], b, e);
      assert (a + b)[1..] == a[1..] + b;
    }
  }

  /** Counting over events bracketed by a first and a last one. */
  lemma CountBracket(first: Event, mid: seq<Event>, last: Event, e: Event)
    ensures Count([first] + mid + [last], e)
      == (if first == e then 1 else 0) + Count(mid, e) + (if last == e then 1 else 0)
  {
    CountAppend([first] + mid, [last], e);
    CountAppend([first], mid, e);
    assert ([first] + mid)[..1] == [first];
  }

  /** "completed" is printed exactly when the wrapped call returned: an
      exception leaves the log without its "completed" line. */
  lemma LoggedCompletedIff<S, T>(name: string, f: Action<S, T>, s: S)
    ensures var r := LogAction(name, f)(s);
      Count(r.events, Print(CompletedLine(name)))
        == Count(f(s).events, Print(CompletedLine(name))) + (if f(s).outcome.Ok? then 1 else 0)
  {
    var r := LogAction(name, f)(s);
    var c := Print(CompletedLine(name));
    assert r.events == [Print(StartedLine(name))] + r.events[1..];
    CountAppend([Print(StartedLine(name))], r.events[1..], c);
    CountAppend(f(s).events, if f(s).outcome.Ok? then [c] else [], c);
    assert StartedLine(name)[7 + |name|] == 's' && CompletedLine(name)[7 + |name|] == 'c';
  }

  /** The guard's own report never holds a log line, since its only print
      starts with "[ERROR]" where a log line starts with "[LOG]". */
  lemma ReportHasNoLogLine(mb: MessageBox, e: Exception, name: string)
    ensures Count(Report(mb, e), Print(StartedLine(name))) == 0
    ensures Count(Report(mb, e), Print(CompletedLine(name))) == 0
    ensures Count(Report(mb, e), ShowError("Error", e.message)) == 1
  {
    var rep := Report(mb, e);
    assert FallbackLine(e)[1] == 'E' && StartedLine(name)[1] == 'L' && CompletedLine(name)[1] == 'L';
    assert rep == [rep[0]] + ([rep[1]] + rep[2..]);
    CountAppend([rep[0]], [rep[1]] + rep[2..], Print(StartedLine(name)));
    CountAppend([rep[1]], rep[2..], Print(StartedLine(name)));
    CountAppend([rep[0]], [rep[1]] + rep[2..], Print(CompletedLine(name)));
    CountAppend([rep[1]], rep[2..], Print(CompletedLine(name)));
    CountAppend([rep[0]], [rep[1]] + rep[2..], ShowError("Error", e.message));
    CountAppend([rep[1]], rep[2..], ShowError("Error", e.message));
  }

  /** Logging outermost and the guard inside, as the application stacks
      them: the stack never raises; "started" comes first and "completed"
      last, each exactly once, whether or not the inner call raises (given it
      prints neither line itself); on success the inner result passes
      through; on an exception the result is `None` and the error box is
      attempted exactly once more than the inner call attempted it. */
  lemma LoggedGuarded<S, T>(name: string, mb: MessageBox, f: Action<S, T>, s: S)
    requires Count(f(s).events, Print(StartedLine(name))) == 0
    requires Count(f(s).events, Print(CompletedLine(name))) == 0
    ensures var r := LogAction(name, GuardUiErrors(mb, f))(s);
      r.outcome.Ok? && r.state == f(s).state &&
      r.events[0] == Print(StartedLine(name)) && r.events[|r.events| - 1] == Print(CompletedLine(name)) &&
      Count(r.events, Print(StartedLine(name))) == 1 &&
      Count(r.events, Print(CompletedLine(name))) == 1 &&
      (f(s).outcome.Ok? ==> r.outcome.value == Some(f(s).outcome.value)) &&
      (f(s).outcome.Err? ==>
        var e := f(s).outcome.error;
        r.outcome.value == None &&
        Count(r.events, ShowError("Error", e.message)) == Count(f(s).events, ShowError("Error", e.message)) + 1)
  {
    var g := GuardUiErrors(mb, f);
    var r := LogAction(name, g)(s);
    var st, co := Print(StartedLine(name)), Print(CompletedLine(name));
    assert StartedLine(name)[7 + |name|] == 's' && CompletedLine(name)[7 + |name|] == 'c';
    var own := if f(s).outcome.Ok? then [] else Report(mb, f(s).outcome.error);
    assert g(s).events == f(s).events + own;
    assert r.events == [st] + (f(s).events + own) + [co];
    CountBracket(st, f(s).events + own, co, st);
    CountAppend(f(s).events, own, st);
    CountBracket(st, f(s).events + own, co, co);
    CountAppend(f(s).events, own, co);
    if f(s).outcome.Err? {
      var e := f(s).outcome.error;
      var box := ShowError("Error", e.message);
      ReportHasNoLogLine(mb, e, name);
      CountBracket(st, f(s).events + own, co, box);
      CountAppend(f(s).events, own, box);
    }
  }
}
