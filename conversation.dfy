/**
 * The conversation state of `OpenRouterChat`: the transcript `messages`, the
 * selected `model`, and what one interactive turn, a command, or a piped
 * request does to them.
 *
 * Besides the source's two fields the class keeps two logs that make its
 * effects visible: `echo`, the reply fragments written to standard output, and
 * `sent`, the requests handed to the completions endpoint.
 */
module Conversation {
  import opened Wrappers
  import opened Strings
  import opened EventStream
  import opened Completion

  datatype Role = System | User | Assistant
  datatype Message = Message(role: Role, content: string)

  /** The body of one request: the model and the transcript it carries. */
  datatype Request = Request(model: string, messages: seq<Message>)

  const DefaultModel: string := "deepseek/deepseek-chat"
  const SystemMessage: Message := Message(System, "你是一个懂中文的友善的IT专家")
  /** The fixed user message that precedes piped content ("please briefly summarise the following"). */
  const SummaryInstruction: Message := Message(User, "请帮我简要总结以下内容")

  /** A transcript as the interactive loop keeps it: the system message, then
      committed user/assistant pairs, each assistant reply non-empty. */
  predicate Transcript(ms: seq<Message>) {
    |ms| % 2 == 1 && ms[0] == SystemMessage &&
    forall i :: 1 <= i < |ms| ==>
      ms[i].role == (if i % 2 == 1 then User else Assistant) &&
      (ms[i].role == Assistant ==> ms[i].content != "")
  }

  /** No two neighbours of a transcript have the same role. */
  lemma TranscriptAlternates(ms: seq<Message>, i: nat)
    requires Transcript(ms) && i + 1 < |ms|
    ensures ms[i].role != ms[i + 1].role
  {
  }

  /** What a line typed at the prompt means. */
  datatype Command = Quit | SwitchModel(name: string) | Say(text: string)

  /** The command dispatch of `interactive_chat`: `exit`/`quit` in any case,
      then `model <name>` with its prefix matched in any case and the name taken
      from the original line, stripped; anything else is a message. */
  function ParseCommand(line: string): Command {
    var lowered := Lower(line);
    if lowered == "exit" || lowered == "quit" then Quit
    else if StartsWith(lowered, "model ") then SwitchModel(Strip(line[6..]))
    else Say(line)
  }

  /** The dispatch order: `exit`/`quit` in any case first, then a `model ` prefix
      in any case, whose name is the original text from index 6 on, stripped;
      every other line, the empty one included, is sent as a message. */
  lemma CommandDispatch(line: string)
    ensures ParseCommand(line) == Quit <==> Lower(line) == "exit" || Lower(line) == "quit"
    ensures ParseCommand(line).SwitchModel? <==> ParseCommand(line) != Quit && StartsWith(Lower(line), "model ")
    ensures ParseCommand(line).SwitchModel? ==> ParseCommand(line).name == Strip(line[6..])
    ensures ParseCommand(line).Say? ==> ParseCommand(line).text == line
  {
  }

  /** A line whose first six characters lower to `model ` switches to the rest
      of the line, stripped, in its own case, whatever follows. */
  lemma ModelPrefixAnyCase(p: string, n: string)
    requires |p| == 6 && Lower(p) == "model "
    ensures ParseCommand(p + n) == SwitchModel(Strip(n))
  {
    assert Lower(p + n)[..6] == Lower(p);
    assert (p + n)[6..] == n;
  }

  /** The whole observable state of a session. */
  datatype SessionState = Session(model: string, messages: seq<Message>, echo: string, sent: seq<Request>)

  /** The state `__init__` creates. */
  function Fresh(model: string): SessionState {
    Session(model, [SystemMessage], "", [])
  }

  /** The rollback of a failed turn: drop the last message if it is the
      speculative user message and not the only one. */
  function Rollback(ms: seq<Message>): seq<Message> {
    if |ms| > 1 && ms[|ms| - 1].role == User then ms[..|ms| - 1] else ms
  }

  /** One chat turn: append the user message, send the transcript, then commit
      the reply or roll back. */
  function TurnState(st: SessionState, text: string, response: Response, parse: string -> Payload): SessionState {
    var speculative := st.messages + [Message(User, text)];
    var outcome := Exchange(response, parse);
    Session(
      st.model,
      if Truthy(outcome.reply) then speculative + [Message(Assistant, outcome.reply.value)] else Rollback(speculative),
      st.echo + outcome.echoed,
      st.sent + [Request(st.model, speculative)])
  }

  /** What one typed line other than `exit`/`quit` does to the session. */
  function LineState(st: SessionState, line: string, response: Response, parse: string -> Payload): SessionState {
    match ParseCommand(line)
    case Quit => st
    case SwitchModel(name) => st.(model := name)
    case Say(text) => TurnState(st, text, response, parse)
  }

  /** The interactive loop over the lines typed, `responses[i]` being the answer
      to a message typed at line `i`. Running out of lines ends the loop as
      `exit` does (`input()` raises and the catch-all handler breaks). */
  function RunSession(st: SessionState, inputs: seq<string>, responses: seq<Response>, parse: string -> Payload): SessionState
    requires |responses| == |inputs|
    decreases |inputs|
  {
    if inputs == [] || ParseCommand(inputs[0]).Quit? then st
    else RunSession(LineState(st, inputs[0], responses[0], parse), inputs[1..], responses[1..], parse)
  }

  /** The session unfolded at line `i`. */
  lemma RunStep(st: SessionState, inputs: seq<string>, responses: seq<Response>, parse: string -> Payload, i: nat)
    requires |responses| == |inputs| && i < |inputs|
    ensures RunSession(st, inputs[i..], responses[i..], parse)
         == if ParseCommand(inputs[i]).Quit? then st
            else RunSession(LineState(st, inputs[i], responses[i], parse), inputs[i + 1..], responses[i + 1..], parse)
  {
    assert inputs[i..][0] == inputs[i];
    assert responses[i..][0] == responses[i];
    assert inputs[i..][1..] == inputs[i + 1..];
    assert responses[i..][1..] == responses[i + 1..];
  }

  /** The number of turns the loop commits. */
  function Successes(inputs: seq<string>, responses: seq<Response>, parse: string -> Payload): nat
    requires |responses| == |inputs|
    decreases |inputs|
  {
    if inputs == [] then 0
    else
      match ParseCommand(inputs[0])
      case Quit => 0
      case SwitchModel(_) => Successes(inputs[1..], responses[1..], parse)
      case Say(_) =>
        (if Truthy(Exchange(responses[0], parse).reply) then 1 else 0) + Successes(inputs[1..], responses[1..], parse)
  }

  /** A turn commits the user message and the reply exactly when the reply is
      truthy, and otherwise restores the transcript exactly; the model is kept
      and the request carries the old transcript plus the user message. The
      rollback is exact because the transcript already holds a message (the
      system message), so the `len > 1` guard never keeps the user message. */
  lemma TurnCommitsOrRollsBack(st: SessionState, text: string, response: Response, parse: string -> Payload)
    requires st.messages != []
    ensures var reply := Exchange(response, parse).reply;
            var after := TurnState(st, text, response, parse);
            after.model == st.model &&
            after.messages == (if Truthy(reply) then st.messages + [Message(User, text), Message(Assistant, reply.value)] else st.messages) &&
            after.sent == st.sent + [Request(st.model, st.messages + [Message(User, text)])]
  {
    var speculative := st.messages + [Message(User, text)];
    var reply := Exchange(response, parse).reply;
    assert speculative[..|speculative| - 1] == st.messages;
    if Truthy(reply) {
      assert speculative + [Message(Assistant, reply.value)]
          == st.messages + [Message(User, text), Message(Assistant, reply.value)];
    }
  }

  /** Appending a user message and a non-empty reply keeps a transcript well formed. */
  lemma TranscriptExtend(ms: seq<Message>, text: string, reply: string)
    requires Transcript(ms) && reply != ""
    ensures Transcript(ms + [Message(User, text), Message(Assistant, reply)])
  {
    var ext := ms + [Message(User, text), Message(Assistant, reply)];
    forall i | 1 <= i < |ext|
      ensures ext[i].role == (if i % 2 == 1 then User else Assistant)
      ensures ext[i].role == Assistant ==> ext[i].content != ""
    {
      if i < |ms| {
        assert ext[i] == ms[i];
      }
    }
  }

  /** A turn keeps the transcript well formed. */
  lemma TurnKeepsTranscript(st: SessionState, text: string, response: Response, parse: string -> Payload)
    requires Transcript(st.messages)
    ensures Transcript(TurnState(st, text, response, parse).messages)
  {
    TurnCommitsOrRollsBack(st, text, response, parse);
    var reply := Exchange(response, parse).reply;
    if Truthy(reply) {
      TranscriptExtend(st.messages, text, reply.value);
    }
  }

  /** Over a whole interactive session the transcript stays well formed, only
      grows (so the system message at index 0 is never removed), and grows by
      exactly one user/assistant pair per committed turn. */
  lemma {:induction false} SessionGrowsByPairs(st: SessionState, inputs: seq<string>, responses: seq<Response>, parse: string -> Payload)
    requires |responses| == |inputs| && Transcript(st.messages)
    decreases |inputs|
    ensures var end := RunSession(st, inputs, responses, parse);
            Transcript(end.messages) &&
            |end.messages| == |st.messages| + 2 * Successes(inputs, responses, parse) &&
            end.messages[..|st.messages|] == st.messages
  {
    if inputs != [] {
      match ParseCommand(inputs[0])
      case Quit =>
      case SwitchModel(name) =>
        SessionGrowsByPairs(st.(model := name), inputs[1..], responses[1..], parse);
      case Say(text) =>
        var next := TurnState(st, text, responses[0], parse);
        TurnCommitsOrRollsBack(st, text, responses[0], parse);
        TurnKeepsTranscript(st, text, responses[0], parse);
        SessionGrowsByPairs(next, inputs[1..], responses[1..], parse);
        var end := RunSession(next, inputs[1..], responses[1..], parse);
        assert end.messages[..|st.messages|] == end.messages[..|next.messages|][..|st.messages|];
    }
  }

  /** From a fresh session, `|messages| == 1 + 2 * successfulTurns`. */
  lemma FreshSessionLength(model: string, inputs: seq<string>, responses: seq<Response>, parse: string -> Payload)
    requires |responses| == |inputs|
    ensures var end := RunSession(Fresh(model), inputs, responses, parse);
            |end.messages| == 1 + 2 * Successes(inputs, responses, parse) && end.messages[0] == SystemMessage
  {
    SessionGrowsByPairs(Fresh(model), inputs, responses, parse);
  }

  /** `exit` or `quit` ends the session with nothing changed. */
  lemma QuitChangesNothing(st: SessionState, inputs: seq<string>, responses: seq<Response>, parse: string -> Payload)
    requires |responses| == |inputs| && inputs != []
    requires Lower(inputs[0]) == "exit" || Lower(inputs[0]) == "quit"
    ensures RunSession(st, inputs, responses, parse) == st
  {
  }

  /** `model <name>` changes the model and nothing else. */
  lemma SwitchModelOnlyChangesModel(st: SessionState, line: string, rest: seq<string>, r: Response, responses: seq<Response>, parse: string -> Payload)
    requires |responses| == |rest| && ParseCommand(line).SwitchModel?
    ensures RunSession(st, [line] + rest, [r] + responses, parse)
         == RunSession(st.(model := ParseCommand(line).name), rest, responses, parse)
  {
    assert ([line] + rest)[1..] == rest;
    assert ([r] + responses)[1..] == responses;
  }

  /** Giving the same `model <name>` twice in a row is the same as giving it once. */
  lemma SwitchModelIdempotent(st: SessionState, line: string, rest: seq<string>, r: Response, responses: seq<Response>, parse: string -> Payload)
    requires |responses| == |rest| && ParseCommand(line).SwitchModel?
    ensures RunSession(st, [line, line] + rest, [r, r] + responses, parse)
         == RunSession(st, [line] + rest, [r] + responses, parse)
  {
    var switched := st.(model := ParseCommand(line).name);
    assert [line, line] + rest == [line] + ([line] + rest);
    assert [r, r] + responses == [r] + ([r] + responses);
    SwitchModelOnlyChangesModel(st, line, [line] + rest, r, [r] + responses, parse);
    SwitchModelOnlyChangesModel(switched, line, rest, r, responses, parse);
    SwitchModelOnlyChangesModel(st, line, rest, r, responses, parse);
    assert switched.(model := ParseCommand(line).name) == switched;
  }

  /** The transient transcript of piped mode: the first message of the
      transcript, the summary instruction, and the stripped content. */
  function PipedTranscript(ms: seq<Message>, content: string): seq<Message> {
    ms[..if |ms| < 1 then |ms| else 1] + [SummaryInstruction, Message(User, Strip(content))]
  }

  /** On a well-formed transcript piped mode sends exactly three messages. */
  lemma PipedTranscriptShape(ms: seq<Message>, content: string)
    requires Transcript(ms)
    ensures PipedTranscript(ms, content) == [SystemMessage, SummaryInstruction, Message(User, Strip(content))]
  {
  }

  class Chat {
    var model: string
    var messages: seq<Message>
    var echo: string
    var sent: seq<Request>

    ghost predicate Valid()
      reads this
    {
      Transcript(messages)
    }

    function State(): SessionState
      reads this
    {
      Session(model, messages, echo, sent)
    }

    /** `OpenRouterChat.__init__`: the transcript holds only the system message.
        The source's `model` argument defaults to `DefaultModel`, which is what
        the entry point uses. */
    constructor (model: string)
      ensures State() == Fresh(model) && Valid()
    {
      this.model := model;
      messages := [SystemMessage];
      echo := "";
      sent := [];
    }

    /** `_send_message_to_ai`: send `history` with the current model, then turn
        the response into a reply, echoing fragments as they arrive. */
    method SendMessageToAi(history: seq<Message>, response: Response, parse: string -> Payload) returns (reply: Option<string>)
      modifies this`echo, this`sent
      ensures reply == Exchange(response, parse).reply
      ensures echo == old(echo) + Exchange(response, parse).echoed
      ensures sent == old(sent) + [Request(model, history)]
    {
      sent := sent + [Request(model, history)];
      match response {
        case TransportFailure =>
          reply := None;
        case Http(status, lines) =>
          match ClassifyStatus(status) {
            case Streamed =>
              var echoed;
              reply, echoed := ReadStream(lines, parse);
              echo := echo + echoed;
            case _ =>
              reply := None;
          }
      }
    }

    /** One message typed in `interactive_chat`: append it speculatively, send
        the transcript, then commit the reply or roll back. */
    method Turn(text: string, response: Response, parse: string -> Payload) returns (reply: Option<string>)
      requires Valid()
      modifies this`messages, this`echo, this`sent
      ensures Valid()
      ensures State() == TurnState(old(State()), text, response, parse)
      ensures reply == Exchange(response, parse).reply
      ensures messages == if Truthy(reply) then old(messages) + [Message(User, text), Message(Assistant, reply.value)]
                          else old(messages)
    {
      ghost var before := State();
      messages := messages + [Message(User, text)];
      reply := SendMessageToAi(messages, response, parse);
      if Truthy(reply) {
        messages := messages + [Message(Assistant, reply.value)];
      } else if |messages| > 1 && messages[|messages| - 1].role == User {
        messages := messages[..|messages| - 1];
      }
      TurnCommitsOrRollsBack(before, text, response, parse);
      TurnKeepsTranscript(before, text, response, parse);
    }

    /** One pass of the `interactive_chat` loop: `exit`/`quit` asks to stop,
        `model <name>` switches the model, any other line is a turn. */
    method HandleLine(line: string, response: Response, parse: string -> Payload) returns (quit: bool)
      requires Valid()
      modifies this`model, this`messages, this`echo, this`sent
      ensures Valid()
      ensures quit == ParseCommand(line).Quit?
      ensures State() == LineState(old(State()), line, response, parse)
    {
      quit := false;
      match ParseCommand(line) {
        case Quit =>
          quit := true;
        case SwitchModel(name) =>
          model := name;
        case Say(text) =>
          var reply := Turn(text, response, parse);
      }
    }

    /** `interactive_chat`: read lines until `exit`/`quit` or the end of input. */
    method InteractiveChat(inputs: seq<string>, responses: seq<Response>, parse: string -> Payload)
      requires |responses| == |inputs| && Valid()
      modifies this
      ensures Valid()
      ensures State() == RunSession(old(State()), inputs, responses, parse)
    {
      ghost var target := RunSession(State(), inputs, responses, parse);
      var i := 0;
      while i < |inputs|
        invariant 0 <= i <= |inputs| && Valid()
        invariant target == RunSession(State(), inputs[i..], responses[i..], parse)
      {
        ghost var before := State();
        RunStep(before, inputs, responses, parse, i);
        var quit := HandleLine(inputs[i], responses[i], parse);
        if quit {
          break;
        }
        i := i + 1;
      }
    }

    /** `handle_piped_input`: send a transient transcript and report the exit
        status (0 on a truthy reply, 1 otherwise); `messages` is not touched. */
    method HandlePipedInput(content: string, response: Response, parse: string -> Payload) returns (exitCode: int)
      modifies this`echo, this`sent
      ensures messages == old(messages) && model == old(model)
      ensures sent == old(sent) + [Request(model, PipedTranscript(messages, content))]
      ensures echo == old(echo) + Exchange(response, parse).echoed
      ensures exitCode == if Truthy(Exchange(response, parse).reply) then 0 else 1
    {
      var transient := messages[..if |messages| < 1 then |messages| else 1];
      transient := transient + [SummaryInstruction];
      transient := transient + [Message(User, Strip(content))];
      assert transient == PipedTranscript(messages, content);
      var reply := SendMessageToAi(transient, response, parse);
      exitCode := if Truthy(reply) then 0 else 1;
    }
  }
}
