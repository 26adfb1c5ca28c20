/** The accumulator as the session holds it, updated in place event by event. */
module ClaudeProtocol {
  import opened ClaudeSpec
  import opened Wrappers

  class ProtocolState {
    var emittedToolIds: map<string, string>
    var inputJsonAccum: map<string, string>
    var lastToolUseId: Option<string>
    var gotResultEvent: bool
    var resultSubtype: Option<string>
    const isResume: bool
    var seenFirstInit: bool
    var pendingSlashCommand: Option<string>

    function View(): State
      reads this
    {
      State(emittedToolIds, inputJsonAccum, lastToolUseId, isResume, seenFirstInit, pendingSlashCommand,
            gotResultEvent, resultSubtype)
    }

    constructor (resume: bool)
      ensures View() == Initial(resume)
    {
      emittedToolIds, inputJsonAccum, lastToolUseId := map[], map[], None;
      gotResultEvent, resultSubtype := false, None;
      isResume, seenFirstInit, pendingSlashCommand := resume, false, None;
    }

    method SetPendingSlashCommand(command: Option<string>)
      modifies this`pendingSlashCommand
      ensures View() == Step(old(View()), SetCommand(command)).s
    {
      pendingSlashCommand := command;
    }

    method MapEvent(raw: Raw) returns (events: seq<Event>)
      modifies this
      ensures var m := ClaudeSpec.MapEvent(old(View()), raw); View() == m.s && events == m.events
    {
      events := [];
      var (body, parent) := Unwrap(raw);
      match body {
        case Init =>
          events := events + [SessionInit];
          if !seenFirstInit && !isResume {
            events := events + [RunState("running", None)];
          }
          seenFirstInit := true;
        case LocalCommandOutput(output) =>
          pendingSlashCommand := None;
          if output != "" {
            events := events + [CommandOutput(output)];
          }
        case KnownSystem(subtype) => events := events + [Notice(subtype)];
        case UnknownSystem(subtype) =>
          if subtype != "" {
            events := events + [RawEvent("claude_system_" + subtype)];
          }
        case BlockStart(block) => events := MapBlockStart(block, parent);
        case BlockDelta(delta) => events := MapBlockDelta(delta, parent);
        case NoOp =>
        case Assistant(messageId, content) =>
          if content.Some? {
            events := MapAssistant(messageId, content.value, parent);
          }
        case User(content) => events := MapUser(content, parent);
        case Result(subtype, usage, denials, error) => events := MapResult(subtype, usage, denials, error);
        case UserRejected(id, name) => events := events + [ToolEnd(id, name, "rejected", parent)];
        case Progress(id) => events := events + [ToolProgress(id, parent)];
        case Summary(id) => events := events + [ToolUseSummary(id, parent)];
        case RateLimit => events := events + [Notice("rate_limit_event")];
        case UnknownType(name) =>
          if name != "" {
            events := events + [RawEvent("claude_" + name)];
          }
      }
    }

    method MapBlockStart(block: Option<Block>, parent: Option<string>) returns (events: seq<Event>)
      modifies this`emittedToolIds, this`inputJsonAccum, this`lastToolUseId
      ensures var m := MapBody(old(View()), BlockStart(block), parent); View() == m.s && events == m.events
    {
      events := [];
      if block.Some? {
        match block.value {
          case ToolUse(id, name) =>
            if id != "" {
              emittedToolIds := emittedToolIds[id := name];
              inputJsonAccum := inputJsonAccum[id := ""];
              lastToolUseId := Some(id);
              events := events + [ToolStart(id, name, parent)];
            }
          case ThinkingBlock(text) =>
            if text != "" {
              events := events + [ThinkingDelta(text, parent)];
            }
          case _ =>
        }
      }
    }

    method MapBlockDelta(delta: Option<Delta>, parent: Option<string>) returns (events: seq<Event>)
      modifies this`inputJsonAccum
      ensures var m := MapBody(old(View()), BlockDelta(delta), parent); View() == m.s && events == m.events
    {
      events := [];
      if delta.Some? {
        match delta.value {
          case TextDelta(text) =>
            if text.Some? && text.value != "" {
              events := events + [MessageDelta(text.value, parent)];
            }
          case ThinkDelta(text) =>
            if text != "" {
              events := events + [ThinkingDelta(text, parent)];
            }
          case InputJson(partial) =>
            if partial.Some? && lastToolUseId.Some? {
              var id := lastToolUseId.value;
              if id in inputJsonAccum {
                inputJsonAccum := inputJsonAccum[id := inputJsonAccum[id] + partial.value];
              }
              if partial.value != "" {
                events := events + [ToolInputDelta(id, partial.value, parent)];
              }
            }
          case OtherDelta =>
        }
      }
    }

    method MapAssistant(messageId: string, content: seq<Block>, parent: Option<string>) returns (events: seq<Event>)
      modifies this`emittedToolIds
      ensures var m := ClaudeSpec.MapAssistant(old(View()), messageId, content, parent);
              View() == m.s && events == m.events
    {
      events := [];
      var textParts: seq<string> := [];
      var k := 0;
      while k < |content|
        invariant 0 <= k <= |content|
        invariant var r := WholeTools(old(View()), content[..k], parent); View() == r.s && events == r.events
        invariant textParts == Texts(content[..k])
      {
        assert content[..k + 1][..k] == content[..k];
        match content[k] {
          case TextBlock(text) =>
            if text.Some? {
              textParts := textParts + [text.value];
            }
          case ToolUse(id, name) =>
            var alreadyEmitted := id in emittedToolIds;
            if !alreadyEmitted {
              emittedToolIds := emittedToolIds[id := name];
              events := events + [ToolStart(id, name, parent)];
            }
          case _ =>
        }
        k := k + 1;
      }
      assert content[..k] == content;
      if textParts != [] {
        events := events + [MessageComplete(messageId, Join(textParts), parent)];
      }
    }

    method MapUser(content: UserContent, parent: Option<string>) returns (events: seq<Event>)
      modifies this`pendingSlashCommand
      ensures var m := ClaudeSpec.MapUser(old(View()), content, parent); View() == m.s && events == m.events
    {
      events := [];
      match content {
        case CommandStdout(output) =>
          pendingSlashCommand := None;
          events := events + [CommandOutput(output)];
        case TaskNote(taskId, status) =>
          if taskId.Some? && status.Some? {
            events := events + [TaskNotification(taskId.value, status.value)];
          }
        case Results(blocks) =>
          var k := 0;
          while k < |blocks|
            invariant 0 <= k <= |blocks|
            invariant events == ToolEnds(old(View()), blocks[..k], parent)
          {
            assert blocks[..k + 1][..k] == blocks[..k];
            if blocks[k].ToolResult? {
              var id := blocks[k].id;
              var name := if id in emittedToolIds then emittedToolIds[id] else "";
              events := events + [ToolEnd(id, name, if blocks[k].isError then "error" else "success", parent)];
            }
            k := k + 1;
          }
          assert blocks[..k] == blocks;
        case NothingKnown =>
      }
    }

    method MapResult(subtype: string, usage: bool, denials: seq<Denial>, error: string) returns (events: seq<Event>)
      modifies this`pendingSlashCommand, this`gotResultEvent, this`resultSubtype
      ensures var m := ClaudeSpec.MapResult(old(View()), subtype, usage, denials, error);
              View() == m.s && events == m.events
    {
      events := [];
      if usage {
        events := events + [UsageUpdate];
        var command := pendingSlashCommand;
        pendingSlashCommand := None;
        events := events + Hint(command);
      }
      ghost var head := events;
      var k := 0;
      while k < |denials|
        invariant 0 <= k <= |denials|
        invariant events == head + Denied(denials[..k])
      {
        assert denials[..k + 1][..k] == denials[..k];
        if denials[k].tool != "" {
          events := events + [PermissionDenied(denials[k].tool, denials[k].id)];
        }
        k := k + 1;
      }
      assert denials[..k] == denials;
      if IsError(subtype) {
        gotResultEvent := true;
        resultSubtype := Some(subtype);
        events := events + [RunState("idle", Some(error))];
      } else {
        events := events + [RunState("idle", None)];
      }
    }
  }
}
