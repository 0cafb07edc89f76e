/**
 * A trigger binds a signal of a form object to a command template.  When
 * the signal fires, the template is resolved against the current form;
 * the action then decides what happens to the result: "execute" runs it
 * as a shell command whose standard output becomes the next form, and
 * "return" hands it back to the user.
 *
 * Process spawning, signal emission and diagnostics are recorded as
 * events in a log; the window the trigger belongs to is a flag, and the
 * form it shows is passed to Handle.
 */
module Triggers {
  import opened Strings
  import CommandParser

  const Execute: string := "execute"
  const Return: string := "return"

  /** How a process ended. */
  datatype ExitStatus = NormalExit | CrashExit

  /** Why a process could not run; Other stands for any further code. */
  datatype ProcessError =
    | FailedToStart | Crashed | Timedout | WriteError | ReadError | UnknownError
    | Other(code: int)

  /** What a trigger makes happen outside itself. */
  datatype Event =
    | UnsupportedAction(objectName: string, signal: string, action: string)
    | SpawnRequested(command: string)
    | DataReturned(data: string)
    | UiChanged(data: string)
    | ProcessCrashed(command: string)
    | ExitFailed(exitCode: int, command: string)
    | NoDataReturned(command: string)
    | ExecutionFailed(reason: string, command: string)

  /** An action is kept when it is supported; anything else executes. */
  function CoercedAction(action: string): (r: string)
    ensures r == Execute || r == Return
    ensures r == Return <==> action == Return
  {
    if action == Execute || action == Return then action else Execute
  }

  /** Whether setting the action reports it as unsupported: an empty action
      silently means execute. */
  predicate Unsupported(action: string) {
    action != Execute && action != Return && action != []
  }

  /** The diagnostics of setting an action. */
  function ActionDiagnostics(action: string, objectName: string, signal: string): seq<Event> {
    if Unsupported(action) then [UnsupportedAction(objectName, signal, action)] else []
  }

  /** The reason reported for a process error. */
  function ErrorMessage(e: ProcessError): string {
    match e
    case FailedToStart => "Failed to start"
    case Crashed => "Crashed"
    case Timedout => "Timeout"
    case WriteError => "Write error"
    case ReadError => "Read error"
    case UnknownError => "Unknown error"
    case Other(_) => "Unknown error"
  }

  /** The errors the process reports by name. */
  predicate Named(e: ProcessError) {
    !e.UnknownError? && !e.Other?
  }

  /** What a finished process leads to: a new form from its output, or the
      first of three diagnostics. */
  function FinishOutcome(exitCode: int, status: ExitStatus, data: string, command: string): Event {
    if status == CrashExit then ProcessCrashed(command)
    else if exitCode != 0 then ExitFailed(exitCode, command)
    else if data == [] then NoDataReturned(command)
    else UiChanged(data)
  }

  /** The text a chunk of output adds: it is read as a C string, so it ends
      at the first NUL character. */
  function CText(chunk: string): (r: string)
    ensures |r| <= |chunk| && r == chunk[..|r|] && '\0' !in r
    ensures |r| < |chunk| ==> chunk[|r|] == '\0'
  {
    match IndexOf(chunk, '\0')
    case None => chunk
    case Some(i) => chunk[..i]
  }

  class Trigger {
    const command: string
    const hasWindow: bool
    var action: string
    var parsedCommand: string
    var returnedData: string
    var events: seq<Event>
    /** The output chunks read since the buffer was last cleared. */
    ghost var chunks: seq<string>

    /** The buffer holds the chunks read since it was last cleared. */
    ghost predicate Valid()
      reads this
    {
      returnedData == Concat(chunks)
    }

    /** A trigger for the signal of an object; with no object the action is
        never set and stays empty. */
    constructor(command: string, action: string, objectName: Option<string>, hasWindow: bool,
                signal: string)
      ensures Valid() && chunks == []
      ensures this.command == command && this.hasWindow == hasWindow
      ensures parsedCommand == [] && returnedData == []
      ensures objectName.None? ==> this.action == [] && events == []
      ensures objectName.Some? ==>
        this.action == CoercedAction(action) &&
        events == ActionDiagnostics(action, objectName.value, signal)
    {
      this.command := command;
      this.hasWindow := hasWindow;
      this.action := [];
      parsedCommand := [];
      returnedData := [];
      events := [];
      chunks := [];
      new;
      if objectName.Some? {
        SetAction(action, objectName.value, signal);
      }
    }

    /** Sets the action, falling back to execute. */
    method SetAction(action: string, objectName: string, signal: string)
      modifies this
      ensures this.action == CoercedAction(action)
      ensures events == old(events) + ActionDiagnostics(action, objectName, signal)
      ensures parsedCommand == old(parsedCommand) && returnedData == old(returnedData)
      ensures chunks == old(chunks)
    {
      this.action := if action == Execute || action == Return then action
                     else if action == [] then Execute else [];
      if this.action == [] {
        events := events + [UnsupportedAction(objectName, signal, action)];
        this.action := Execute;
      }
    }

    /** Fires the trigger on the form root: resolves the command and
        either asks for it to be run or returns it. */
    method Handle(root: Option<CommandParser.WidgetTree>) returns (handled: bool)
      requires Valid()
      modifies this
      ensures Valid() && action == old(action)
      ensures handled <==> command != [] && hasWindow
      ensures !handled ==>
        parsedCommand == old(parsedCommand) && returnedData == old(returnedData) &&
        events == old(events) && chunks == old(chunks)
      ensures handled ==> parsedCommand == CommandParser.ParsedInput(root, command)
      ensures handled && action == Execute ==>
        returnedData == [] && chunks == [] && events == old(events) + [SpawnRequested(parsedCommand)]
      ensures handled && action != Execute ==> returnedData == old(returnedData) && chunks == old(chunks)
      ensures handled && action == Return ==> events == old(events) + [DataReturned(parsedCommand)]
      ensures handled && action != Execute && action != Return ==> events == old(events)
    {
      if command == [] || !hasWindow {
        return false;
      }
      parsedCommand := CommandParser.Parse(root, command);
      if action == Execute {
        returnedData := [];
        chunks := [];
        events := events + [SpawnRequested(parsedCommand)];
      } else if action == Return {
        events := events + [DataReturned(parsedCommand)];
      }
      return true;
    }

    /** Appends a chunk of the process's standard output to the buffer. */
    method ReadFromStdout(chunk: string)
      requires Valid()
      modifies this
      ensures Valid() && chunks == old(chunks) + [CText(chunk)]
      ensures returnedData == old(returnedData) + CText(chunk)
      ensures action == old(action) && parsedCommand == old(parsedCommand) && events == old(events)
    {
      var text := CText(chunk);
      ConcatAppend(chunks, text);
      returnedData := returnedData + text;
      chunks := chunks + [text];
    }

    /** The process has ended: its output becomes the new form when it
        exited normally with code 0 and wrote something. */
    method Finished(exitCode: int, status: ExitStatus)
      modifies this
      ensures events == old(events) + [FinishOutcome(exitCode, status, returnedData, parsedCommand)]
      ensures action == old(action) && parsedCommand == old(parsedCommand)
      ensures returnedData == old(returnedData) && chunks == old(chunks)
    {
      if status == CrashExit {
        events := events + [ProcessCrashed(parsedCommand)];
        return;
      }
      if exitCode != 0 {
        events := events + [ExitFailed(exitCode, parsedCommand)];
        return;
      }
      if returnedData == [] {
        events := events + [NoDataReturned(parsedCommand)];
        return;
      }
      events := events + [UiChanged(returnedData)];
    }

    /** The process could not run. */
    method Error(e: ProcessError)
      modifies this
      ensures events == old(events) + [ExecutionFailed(ErrorMessage(e), parsedCommand)]
      ensures action == old(action) && parsedCommand == old(parsedCommand)
      ensures returnedData == old(returnedData) && chunks == old(chunks)
    {
      var reason: string;
      match e {
        case FailedToStart => reason := "Failed to start";
        case Crashed => reason := "Crashed";
        case Timedout => reason := "Timeout";
        case WriteError => reason := "Write error";
        case ReadError => reason := "Read error";
        case _ => reason := "Unknown error";
      }
      events := events + [ExecutionFailed(reason, parsedCommand)];
    }
  }

  // ---------------------------------------------------------------------
  // Properties
  // ---------------------------------------------------------------------

  lemma ConcatAppend(xs: seq<string>, x: string)
    ensures Concat(xs + [x]) == Concat(xs) + x
  {
    assert (xs + [x])[..|xs|] == xs;
  }

  /** Only the empty action is accepted silently; the only actions kept
      are the supported ones. */
  lemma ActionCoercion(action: string)
    ensures CoercedAction(action) == action <==> action == Execute || action == Return
    ensures ActionDiagnostics(action, [], []) == [] <==>
      action == Execute || action == Return || action == []
  {
  }

  /** Every named error has a message of its own; the unknown error and
      any other code share one. */
  lemma ErrorMessagesDistinct(e1: ProcessError, e2: ProcessError)
    ensures ErrorMessage(e1) == ErrorMessage(e2) <==> e1 == e2 || (!Named(e1) && !Named(e2))
  {
    var m1, m2 := ErrorMessage(e1), ErrorMessage(e2);
    if m1 == m2 && (Named(e1) || Named(e2)) {
      assert m1[0] == m2[0] && |m1| == |m2|;
    }
  }

  /** A finished process changes the form exactly when it exited normally
      with code 0 and its output is not empty, and then the new form is
      that output. */
  lemma FinishChangesUi(exitCode: int, status: ExitStatus, data: string, command: string)
    ensures FinishOutcome(exitCode, status, data, command).UiChanged? <==>
      status == NormalExit && exitCode == 0 && data != []
    ensures FinishOutcome(exitCode, status, data, command).UiChanged? ==>
      FinishOutcome(exitCode, status, data, command).data == data
  {
  }

  /** A NUL-free chunk is added whole. */
  lemma CTextWhole(chunk: string)
    requires '\0' !in chunk
    ensures CText(chunk) == chunk
  {
  }

  /** An executing trigger fired on a form asks for the resolved command
      to be run, with an empty output buffer. */
  method StartRun(root: Option<CommandParser.WidgetTree>, command: string) returns (t: Trigger)
    requires command != []
    ensures fresh(t) && t.Valid() && t.action == Execute
    ensures t.parsedCommand == CommandParser.ParsedInput(root, command)
    ensures t.returnedData == [] && t.events == [SpawnRequested(t.parsedCommand)]
  {
    t := new Trigger(command, [], Some("button"), true, "clicked()");
    assert t.action == Execute && t.events == [];
    var handled := t.Handle(root);
  }

  /** A started trigger that reads two chunks of output and finishes
      normally changes the form to the two chunks' text. */
  method FinishRun(t: Trigger, first: string, second: string)
    requires t.Valid() && t.returnedData == []
    requires '\0' !in first && '\0' !in second && first + second != []
    modifies t
    ensures t.events == old(t.events) + [UiChanged(first + second)]
    ensures t.parsedCommand == old(t.parsedCommand)
  {
    CTextWhole(first);
    CTextWhole(second);
    t.ReadFromStdout(first);
    t.ReadFromStdout(second);
    assert t.returnedData == [] + first + second == first + second;
    t.Finished(0, NormalExit);
  }

  /** An executing trigger fired on a form, reading two chunks of output
      and finishing normally, asks for the resolved command to be run and
      then changes the form to the two chunks' text. */
  method ExecuteRun(root: Option<CommandParser.WidgetTree>, command: string, first: string,
                    second: string) returns (events: seq<Event>)
    requires command != [] && '\0' !in first && '\0' !in second && first + second != []
    ensures events == [SpawnRequested(CommandParser.ParsedInput(root, command)), UiChanged(first + second)]
  {
    var t := StartRun(root, command);
    FinishRun(t, first, second);
    events := t.events;
  }

  /** A returning trigger hands the resolved command back and runs nothing;
      a trigger without a window does nothing at all. */
  method ReturnRun(root: Option<CommandParser.WidgetTree>, command: string)
    returns (returned: seq<Event>, windowless: seq<Event>)
    requires command != []
    ensures returned == [DataReturned(CommandParser.ParsedInput(root, command))]
    ensures windowless == []
  {
    var t := new Trigger(command, Return, Some("button"), true, "clicked()");
    var handled := t.Handle(root);
    returned := t.events;
    var u := new Trigger(command, Return, Some("button"), false, "clicked()");
    handled := u.Handle(root);
    windowless := u.events;
  }
}
