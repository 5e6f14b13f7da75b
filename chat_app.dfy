/** The chat client's state and its three operations on it: a user turn
    (`process_and_send_to_ollama`), the streamed reply (`stream_response`)
    and clearing the chat (`clear_chat`). The HTTP exchange is replaced by
    its two ends: the request the client builds, returned as a value, and
    the decoded reply lines, passed in. */
module App {
  import opened Text
  import opened Dispatcher
  import opened Conversation

  /** The JSON payload posted to the generate endpoint. */
  datatype Request = Request(model: string, prompt: string, stream: bool)

  const ModelName := "qwen2"
  const NoResponseText := "Qwen2: (No response received. The model might still be loading or processing.)"
  const WelcomeText := "Qwen2 Advanced Reasoning Chat initiated. Embark on a journey of profound intellectual exploration!"
  const ClearedText := "Chat cleared. Initiate a new intellectual discourse with Qwen2!"

  class ChatApp {
    /** `system_prompt`, fixed when the client starts. */
    const systemPrompt: string
    /** `conversation_history` */
    var history: seq<Message>
    /** The events sent to the chat window, in order: the client's notices,
        streamed chunks, section panels and blocks, and the empty-reply error
        line. Panels a block later destroys keep their events here. */
    var log: seq<Event>

    ghost predicate Valid()
      reads this
    {
      WellShaped(history, systemPrompt)
    }

    constructor (systemPrompt: string)
      ensures this.systemPrompt == systemPrompt
      ensures history == [] && log == [Notice(WelcomeText)]
      ensures Valid()
    {
      this.systemPrompt := systemPrompt;
      history := [];
      log := [Notice(WelcomeText)];
    }

    /** A user turn: the system message on the first turn, the user's
        message, then the request for the reply and the reply itself. Turns
        run here one after another; `Valid()` relies on that, since the
        client does not stop a second send or a clear during a stream. */
    method ProcessAndSend(message: string, reply: seq<Line>) returns (request: Request)
      requires Valid()
      modifies this
      ensures Valid()
      ensures request ==
        Request(ModelName, Format(BeginTurn(old(history), systemPrompt, message)) + TurnPrompt(message), true)
      ensures history == EndTurn(BeginTurn(old(history), systemPrompt, message), Concat(Chunks(reply)))
      ensures log == old(log) + Dispatch(reply).1 +
        (if Concat(Chunks(reply)) == "" then [NoResponse(NoResponseText)] else [])
    {
      BeginTurnKeepsShape(history, systemPrompt, message);
      if history == [] {
        history := [Message(System, systemPrompt)];
      }
      history := history + [Message(User, message)];
      var prompt := "Human: " + message + "\n" + ReplyCue;
      request := StreamResponse(prompt, reply);
    }

    /** Posts the rendered log followed by `prompt`, dispatches the streamed
        reply and records it in the log if it is not empty. */
    method StreamResponse(prompt: string, reply: seq<Line>) returns (request: Request)
      requires Valid() && history != [] && history[|history| - 1].role == User
      modifies this
      ensures Valid()
      ensures request == Request(ModelName, Format(old(history)) + prompt, true)
      ensures history == EndTurn(old(history), Concat(Chunks(reply)))
      ensures log == old(log) + Dispatch(reply).1 +
        (if Concat(Chunks(reply)) == "" then [NoResponse(NoResponseText)] else [])
    {
      var formatted := FormatConversation(history);
      request := Request(ModelName, formatted + prompt, true);
      var section, content, full, events := DispatchStream(reply);
      log := log + events;
      EndTurnKeepsShape(history, systemPrompt, full);
      if full != "" {
        history := history + [Message(Assistant, full)];
        assert log + [] == log;
      } else {
        log := log + [NoResponse(NoResponseText)];
      }
    }

    /** Empties the chat-log text, forgets the conversation and shows the
        cleared notice. Section panels are not part of the chat-log text and
        are not tracked here. */
    method ClearChat()
      modifies this
      ensures history == [] && log == [Notice(ClearedText)]
      ensures Valid()
    {
      log := [];
      history := [];
      log := log + [Notice(ClearedText)];
    }
  }

  /** The reply is recorded exactly when its chunks are not all empty, and
      then as their concatenation, right after the user's message. */
  lemma ReplyRecordedIffNonEmpty(h: seq<Message>, systemPrompt: string, message: string, reply: seq<Line>)
    requires WellShaped(h, systemPrompt)
    ensures var before := BeginTurn(h, systemPrompt, message);
      var after := EndTurn(before, Concat(Chunks(reply)));
      (|after| == |before| + 1 <==> Concat(Chunks(reply)) != "") &&
      (Concat(Chunks(reply)) != "" ==> after[|after| - 1] == Message(Assistant, Concat(Chunks(reply)))) &&
      WellShaped(after, systemPrompt)
  {
    var before := BeginTurn(h, systemPrompt, message);
    BeginTurnKeepsShape(h, systemPrompt, message);
    EndTurnKeepsShape(before, systemPrompt, Concat(Chunks(reply)));
  }
}
