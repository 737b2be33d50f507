/**
 * OpenCode's turn codec (opencode/codec.go): the state it keeps across lines, and what a turn's
 * events are whatever lines arrive between a prompt and its answer.
 */
module Turns {
  import opened Common
  import opened Workflows

  // ---- Lines and events --------------------------------------------------------------------

  /** A tool call's update; output is what outputText makes of rawOutput. */
  datatype ToolUpdate = ToolUpdate(
    id: string, title: string, status: string, rawInput: string, rawOutput: string, output: string)

  /** A session update; text is None for content that is not a text block. */
  datatype Update =
    | Chunk(message: string, text: Option<string>)
    | Thought(text: Option<string>)
    | Tool(tool: ToolUpdate)
    | OtherUpdate

  datatype PromptResult = PromptResult(stopReason: string, usage: Option<Usage>)

  /** A line, as JSON decodes it; an update or a result is None when it does not. */
  datatype Line =
    | Unreadable
    | Request
    | SessionUpdate(update: Option<Update>)
    | Notification
    | Response(id: string, error: Option<string>, result: Option<PromptResult>)

  datatype Event =
    | Started | TextDelta(text: string) | ThinkingDelta(text: string)
    | ToolCall(id: string, name: string, args: string)
    | ToolResult(id: string, name: string, result: string, failed: bool)
    | MessageEnd(stopReason: string, text: string, usage: Option<Usage>)
    | Cancelled | Structured(args: string) | Rejected(err: string) | Error(err: string) | Ended | Harness

  datatype Call = Prompt | Load | OtherCall

  const TOOL_PREFIX := "driver_"
  const RESPOND_PREFIX := "respond_"
  const ACCEPTED := "Accepted."

  function ToolName(title: string): string {
    if TOOL_PREFIX <= title then title[|TOOL_PREFIX|..] else title
  }

  predicate IsRespond(name: string) {
    RESPOND_PREFIX <= name
  }

  /** The status says the call runs, or has ended. */
  predicate Surfaces(status: string) {
    status != "pending" && status != ""
  }

  predicate Ends(status: string) {
    status == "completed" || status == "failed"
  }

  /** The update carries arguments: a pending call's empty object is none yet. */
  predicate CarriesArgs(u: ToolUpdate) {
    u.rawInput != "" && (u.rawInput != "{}" || u.status != "pending")
  }

  // ---- The state's meaning -----------------------------------------------------------------

  datatype State = State(
    prompts: set<string>, loads: set<string>, started: bool, message: string, text: string,
    calls: map<string, string>, args: map<string, string>, called: set<string>)

  const FRESH := State({}, {}, false, "", "", map[], map[], {})

  function Get(m: map<string, string>, k: string): string {
    if k in m then m[k] else ""
  }

  function Encoded(s: State, id: string, call: Call): State {
    if id == "" then s
    else
      match call
      case Prompt => s.(prompts := s.prompts + {id}, started := false, message := "", text := "")
      case Load => s.(loads := s.loads + {id})
      case OtherCall => s
  }

  /** The events of a tool call's update: its call, its end, or neither. */
  function CallEvents(first: bool, u: ToolUpdate, name: string, args: string): seq<Event> {
    if first && Surfaces(u.status) && !IsRespond(name) then [ToolCall(u.id, name, args)] else []
  }

  function EndEvents(u: ToolUpdate, name: string, args: string): seq<Event> {
    if !Ends(u.status) then []
    else if !IsRespond(name) then [ToolResult(u.id, name, u.rawOutput, u.status == "failed")]
    else if u.status == "failed" || u.output != ACCEPTED then [Rejected("opencode: respond: " + u.output)]
    else [Structured(args)]
  }

  function OrHarness(events: seq<Event>): seq<Event> {
    if events == [] then [Harness] else events
  }

  function Tooled(s: State, u: ToolUpdate): (State, seq<Event>) {
    var name := if u.id in s.calls then s.calls[u.id] else ToolName(u.title);
    var args := if CarriesArgs(u) then s.args[u.id := u.rawInput] else s.args;
    var events := OrHarness(
      CallEvents(u.id !in s.called, u, name, Get(args, u.id)) + EndEvents(u, name, Get(args, u.id)));
    if Ends(u.status) then
      (s.(calls := s.calls - {u.id}, args := args - {u.id}, called := s.called - {u.id}), events)
    else
      (s.(calls := s.calls[u.id := name], args := args,
          called := if Surfaces(u.status) then s.called + {u.id} else s.called), events)
  }

  function Updated(s: State, u: Update): (State, seq<Event>) {
    match u
    case Chunk(message, Some(text)) =>
      (s.(message := message, text := if message == s.message then s.text + text else text), [TextDelta(text)])
    case Thought(Some(text)) => (s, [ThinkingDelta(text)])
    case Tool(tool) => Tooled(s, tool)
    case _ => (s, [Harness])
  }

  function Notified(s: State, update: Option<Update>): (State, seq<Event>) {
    if update.None? then (s, [Error("opencode: decode")])
    else if s.loads != {} || s.prompts == {} then (s, [Harness])
    else
      var (s', events) := Updated(s, update.value);
      (s'.(started := true), (if s.started then [] else [Started]) + events)
  }

  /** What ends a turn: its last message, and why it stopped. */
  function Closing(text: string, error: Option<string>, result: Option<PromptResult>): seq<Event> {
    var stop :=
      if error.Some? || result.None? then "error"
      else if result.value.stopReason == "cancelled" then "aborted" else result.value.stopReason;
    var usage := if error.Some? || result.None? then None else result.value.usage;
    [MessageEnd(stop, text, usage)]
    + (if stop == "aborted" then [Cancelled]
       else if error.Some? then [Error(error.value)]
       else if stop == "error" then [Error("opencode: unreadable prompt result")]
       else [])
    + [Ended]
  }

  function Answered(s: State, id: string, error: Option<string>, result: Option<PromptResult>): (State, seq<Event>) {
    var s1 := s.(loads := s.loads - {id});
    if id !in s.prompts then (s1, [])
    else
      (s1.(prompts := s.prompts - {id}, calls := map[], args := map[], called := {}, started := false),
       (if s.started then [] else [Started]) + Closing(s.text, error, result))
  }

  /** What Decode does with a line. The client pushes an error event for one it cannot read. */
  function Decoded(s: State, line: Line): (State, seq<Event>) {
    match line
    case Unreadable => (s, [Error("opencode: decode")])
    case Request => (s, [])
    case SessionUpdate(update) => Notified(s, update)
    case Notification => (s, [Harness])
    case Response(id, error, result) => Answered(s, id, error, result)
  }

  // ---- The source's object -----------------------------------------------------------------

  class Codec {
    var prompts: set<string>
    var loads: set<string>
    var started: bool
    var message: string
    var text: string
    var calls: map<string, string>
    var args: map<string, string>
    var called: set<string>

    function View(): State
      reads this
    {
      State(prompts, loads, started, message, text, calls, args, called)
    }

    constructor ()
      ensures View() == FRESH
    {
      prompts, loads, started, message, text := {}, {}, false, "", "";
      calls, args, called := map[], map[], {};
    }

    method Encode(id: string, call: Call)
      modifies this
      ensures View() == Encoded(old(View()), id, call)
    {
      if id != "" {
        match call {
          case Prompt =>
            prompts := prompts + {id};
            started, message, text := false, "", "";
          case Load =>
            loads := loads + {id};
          case OtherCall =>
        }
      }
    }

    /** What an update of a call leaves in the maps until the call ends. */
    method Note(u: ToolUpdate) returns (name: string, given: string, first: bool)
      modifies this
      ensures name == (if u.id in old(calls) then old(calls)[u.id] else ToolName(u.title))
      ensures first == (u.id !in old(called)) && given == Get(args, u.id)
      ensures View() == old(View()).(
        calls := old(calls)[u.id := name], args := if CarriesArgs(u) then old(args)[u.id := u.rawInput] else old(args),
        called := if Surfaces(u.status) then old(called) + {u.id} else old(called))
    {
      if u.id in calls {
        name := calls[u.id];
        assert calls[u.id := name] == calls;
      } else {
        name := ToolName(u.title);
        calls := calls[u.id := name];
      }
      if |u.rawInput| > 0 && (u.rawInput != "{}" || u.status != "pending") {
        args := args[u.id := u.rawInput];
      }
      given := Get(args, u.id);
      first := u.id !in called;
      if first && u.status != "pending" && u.status != "" {
        called := called + {u.id};
      }
      assert !first ==> called + {u.id} == called;
    }

    /** The events of an update, by the call it is of. */
    static method Report(u: ToolUpdate, name: string, given: string, first: bool) returns (events: seq<Event>)
      ensures events == OrHarness(CallEvents(first, u, name, given) + EndEvents(u, name, given))
    {
      hide IsRespond;
      var respond := IsRespond(name);
      events := [];
      if first && u.status != "pending" && u.status != "" && !respond {
        events := events + [ToolCall(u.id, name, given)];
      }
      assert events == CallEvents(first, u, name, given);
      if u.status == "completed" || u.status == "failed" {
        var failed := u.status == "failed";
        if respond && (failed || u.output != ACCEPTED) {
          events := events + [Rejected("opencode: respond: " + u.output)];
        } else if respond {
          events := events + [Structured(given)];
        } else {
          events := events + [ToolResult(u.id, name, u.rawOutput, failed)];
        }
      }
      assert events == CallEvents(first, u, name, given) + EndEvents(u, name, given);
      if |events| == 0 {
        events := [Harness];
      }
    }

    method ToolStep(u: ToolUpdate) returns (events: seq<Event>)
      modifies this
      ensures (View(), events) == Tooled(old(View()), u)
    {
      hide ToolName, CallEvents, EndEvents, OrHarness, CarriesArgs, Get;
      var name, given, first := Note(u);
      if u.status == "completed" || u.status == "failed" {
        calls := calls - {u.id};
        args := args - {u.id};
        called := called - {u.id};
        assert calls == old(calls) - {u.id} && called == old(called) - {u.id};
      }
      events := Report(u, name, given, first);
    }

    method UpdateStep(u: Update) returns (events: seq<Event>)
      modifies this
      ensures (View(), events) == Updated(old(View()), u)
    {
      events := [Harness];
      match u {
        case Chunk(id, Some(chunk)) =>
          if id != message {
            message, text := id, "";
          }
          text := text + chunk;
          assert "" + chunk == chunk;
          events := [TextDelta(chunk)];
        case Thought(Some(thought)) =>
          events := [ThinkingDelta(thought)];
        case Tool(tool) =>
          events := ToolStep(tool);
        case _ =>
      }
    }

    method NotificationStep(update: Option<Update>) returns (events: seq<Event>)
      modifies this
      ensures (View(), events) == Notified(old(View()), update)
    {
      if update.None? {
        return [Error("opencode: decode")];
      }
      if |loads| > 0 || |prompts| == 0 {
        return [Harness];
      }
      events := UpdateStep(update.value);
      assert [] + events == events;
      if !started {
        started := true;
        events := [Started] + events;
      }
    }

    method End(error: Option<string>, result: Option<PromptResult>) returns (events: seq<Event>)
      modifies this
      ensures events == (if old(started) then [] else [Started]) + Closing(old(text), error, result)
      ensures View() == old(View()).(calls := map[], args := map[], called := {}, started := false)
    {
      events := [];
      if !started {
        events := events + [Started];
      }
      var stop, usage := "error", None;
      if error.None? && result.Some? {
        stop := if result.value.stopReason == "cancelled" then "aborted" else result.value.stopReason;
        usage := result.value.usage;
      }
      events := events + [MessageEnd(stop, text, usage)];
      if stop == "aborted" {
        events := events + [Cancelled];
      } else if error.Some? {
        events := events + [Error(error.value)];
      } else if stop == "error" {
        events := events + [Error("opencode: unreadable prompt result")];
      }
      calls, args, called, started := map[], map[], {}, false;
      events := events + [Ended];
    }

    method Decode(line: Line) returns (events: seq<Event>)
      modifies this
      ensures (View(), events) == Decoded(old(View()), line)
    {
      match line {
        case Unreadable => return [Error("opencode: decode")];
        case Request => return [];
        case SessionUpdate(update) => events := NotificationStep(update);
        case Notification => return [Harness];
        case Response(id, error, result) =>
          loads := loads - {id};
          if id !in prompts {
            return [];
          }
          prompts := prompts - {id};
          events := End(error, result);
      }
    }
  }
}
