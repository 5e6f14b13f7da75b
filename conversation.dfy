/** The conversation log kept by the chat client and the prompt text built
    from it: `format_conversation` renders every logged message on its own
    line under a speaker label and strips the result; a user turn adds the
    system message (first turn only) and the user's message to the log, and
    a non-empty reply adds the assistant's message. */
module Conversation {
  import opened Text

  /** The `role` key of a logged message: the three roles the client writes,
      and `Other` for any string other than "system", "user" and "assistant"
      (the type does not enforce that restriction). */
  datatype Role = System | User | Assistant | Other(name: string)

  /** One entry of `conversation_history`: a role and its text. */
  datatype Message = Message(role: Role, content: string)

  /** The line one message contributes to the rendering, under its
      speaker's label; a message with any other role contributes nothing. */
  function RenderLine(m: Message): string {
    if m.role.Other? then "" else Speaker(m.role) + m.content + "\n"
  }

  /** The label a known role's line starts with. */
  function Speaker(role: Role): string
    requires !role.Other?
  {
    match role
    case System => "System: "
    case User => "Human: "
    case Assistant => "Assistant: "
  }

  /** The rendering before stripping: one line per message, in log order. */
  function Render(h: seq<Message>): (r: string)
    ensures r == [] <==> forall i :: 0 <= i < |h| ==> h[i].role.Other?
  {
    if h == [] then "" else RenderLine(h[0]) + Render(h[1..])
  }

  /** `format_conversation()`: the rendering, stripped. */
  function Format(h: seq<Message>): (r: string)
    ensures |r| <= |Render(h)|
    ensures r == [] || (!IsSpace(r[0]) && !IsSpace(r[|r| - 1]))
  {
    StripTrims(Render(h));
    Strip(Render(h))
  }

  /** The loop of `format_conversation`: accumulate one line per message,
      then strip. */
  method FormatConversation(history: seq<Message>) returns (formatted: string)
    ensures formatted == Format(history)
  {
    formatted := "";
    var i := 0;
    while i < |history|
      invariant 0 <= i <= |history|
      invariant formatted == Render(history[..i])
    {
      var message := history[i];
      if message.role == System {
        formatted := formatted + ("System: " + message.content + "\n");
      } else if message.role == User {
        formatted := formatted + ("Human: " + message.content + "\n");
      } else if message.role == Assistant {
        formatted := formatted + ("Assistant: " + message.content + "\n");
      }
      assert history[..i + 1] == history[..i] + [message];
      RenderSnoc(history[..i], message);
      i := i + 1;
    }
    assert history[..i] == history;
    formatted := Strip(formatted);
  }

  /** Rendering distributes over concatenation of logs. */
  lemma {:induction false} RenderAppend(a: seq<Message>, b: seq<Message>)
    ensures Render(a + b) == Render(a) + Render(b)
  {
    if a == [] {
      assert a + b == b;
    } else {
      assert (a + b)[1..] == a[1..] + b;
      RenderAppend(a[1..], b);
    }
  }

  /** One more logged message adds exactly its line at the end, which is
      what each iteration of `format_conversation`'s loop does. */
  lemma RenderSnoc(h: seq<Message>, m: Message)
    ensures Render(h + [m]) == Render(h) + RenderLine(m)
  {
    RenderAppend(h, [m]);
    assert [m][1..] == [];
  }

  /** A message with an unknown role leaves the rendering unchanged. */
  lemma RenderSkipsUnknownRole(h: seq<Message>, m: Message)
    requires m.role.Other?
    ensures Format(h + [m]) == Format(h)
  {
    RenderSnoc(h, m);
    assert Render(h) + "" == Render(h);
  }

  /** The text `process_and_send_to_ollama` appends after the log. */
  const ReplyCue := "Assistant: Initiating comprehensive analysis and response formulation.\n"

  function TurnPrompt(message: string): (r: string)
    ensures |r| == |message| + 8 + |ReplyCue|
    ensures r[7..7 + |message|] == message
  {
    "Human: " + message + "\n" + ReplyCue
  }

  /** The log a user turn starts from: the system message on the first turn. */
  function Base(h: seq<Message>, systemPrompt: string): (r: seq<Message>)
    ensures WellShaped(h, systemPrompt) ==>
      WellShaped(r, systemPrompt) && r != [] && r[0] == Message(System, systemPrompt)
  {
    if h == [] then [Message(System, systemPrompt)] else h
  }

  /** The log after `process_and_send_to_ollama` has recorded the user's message. */
  function BeginTurn(h: seq<Message>, systemPrompt: string, message: string): (r: seq<Message>)
    ensures |h| + 1 <= |r| <= |h| + 2 && r[|r| - 1] == Message(User, message)
    ensures h != [] ==> r[..|h|] == h
    ensures |r| == |h| + 2 <==> h == []
    ensures h == [] ==> r[0] == Message(System, systemPrompt)
  {
    Base(h, systemPrompt) + [Message(User, message)]
  }

  /** The log after `stream_response`: the reply is recorded only if it is not empty. */
  function EndTurn(h: seq<Message>, reply: string): (r: seq<Message>)
    ensures |h| <= |r| <= |h| + 1 && r[..|h|] == h
    ensures |r| == |h| + 1 <==> reply != ""
    ensures reply != "" ==> r[|h|] == Message(Assistant, reply)
  {
    if reply != "" then h + [Message(Assistant, reply)] else h
  }

  /** The shape of the log when turns run one at a time and `clear_chat`
      does not interrupt a stream: empty, or the system message first and
      only there, then user messages, each assistant message right after a
      user message. */
  predicate WellShaped(h: seq<Message>, systemPrompt: string) {
    h == [] ||
    (h[0] == Message(System, systemPrompt) &&
     forall i {:trigger h[i]} :: 1 <= i < |h| ==>
       h[i].role == User || (h[i].role == Assistant && h[i - 1].role == User))
  }

  /** In a well-shaped log the system message is the first entry and no other. */
  lemma OnlyFirstIsSystem(h: seq<Message>, systemPrompt: string, i: int)
    requires WellShaped(h, systemPrompt) && 0 <= i < |h|
    ensures h[i].role == System <==> i == 0
  {
    if i > 0 {
      assert h[i].role == User || h[i].role == Assistant;
    }
  }

  /** A user turn keeps the log well shaped, puts the system message first
      (adding it only to an empty log) and ends with the user's message. */
  lemma BeginTurnKeepsShape(h: seq<Message>, systemPrompt: string, message: string)
    requires WellShaped(h, systemPrompt)
    ensures var r := BeginTurn(h, systemPrompt, message);
      WellShaped(r, systemPrompt) &&
      r[0] == Message(System, systemPrompt) &&
      r[|r| - 1] == Message(User, message)
  {
    var b := Base(h, systemPrompt);
    var r := b + [Message(User, message)];
    assert r[0] == b[0];
    forall i | 1 <= i < |r|
      ensures r[i].role == User || (r[i].role == Assistant && r[i - 1].role == User)
    {
      if i < |b| {
        assert r[i] == b[i] && r[i - 1] == b[i - 1];
      }
    }
  }

  /** Recording the reply after a user message keeps the log well shaped;
      the log grows exactly when the reply is not empty. */
  lemma EndTurnKeepsShape(h: seq<Message>, systemPrompt: string, reply: string)
    requires WellShaped(h, systemPrompt) && h != [] && h[|h| - 1].role == User
    ensures WellShaped(EndTurn(h, reply), systemPrompt)
  {
    if reply != "" {
      var r := h + [Message(Assistant, reply)];
      assert r[..|h|] == h;
      forall i | 1 <= i < |r|
        ensures r[i].role == User || (r[i].role == Assistant && r[i - 1].role == User)
      {
        if i < |h| {
          assert r[i] == h[i] && r[i - 1] == h[i - 1];
        } else {
          assert r[i - 1] == h[|h| - 1];
        }
      }
    } else {
      assert h[..|h|] == h;
    }
  }

  /** A well-shaped non-empty log renders starting with "System: ". */
  lemma RenderStartsWithSystem(h: seq<Message>, systemPrompt: string)
    requires WellShaped(h, systemPrompt) && h != []
    ensures Render(h) != [] && Render(h)[0] == 'S'
  {
  }

  /** Stripping a log whose last message is a user's message that ends in a
      non-space character removes only the final newline at the end. */
  lemma FormatAfterUser(h: seq<Message>, message: string)
    requires message != [] && !IsSpace(message[|message| - 1])
    ensures Format(h + [Message(User, message)]) == StripLeft(Render(h) + ("Human: " + message))
  {
    var line := "Human: " + message;
    var x := Render(h) + line;
    RenderSnoc(h, Message(User, message));
    assert Render(h) + (line + "\n") == x + "\n";
    assert x[|x| - 1] == message[|message| - 1];
    StripRightDropsSpace(x, "\n");
  }

  /** The prompt sent for a user turn, on a well-shaped log and a message as
      `send_message` passes it (stripped, not empty): the log rendered up to
      the user's message, then the message a second time, with no separator
      between the two, then the reply cue. */
  lemma PromptRepeatsMessage(h: seq<Message>, systemPrompt: string, message: string)
    requires WellShaped(h, systemPrompt)
    requires message != [] && !IsSpace(message[|message| - 1])
    ensures Format(BeginTurn(h, systemPrompt, message)) + TurnPrompt(message) ==
      Render(Base(h, systemPrompt)) + "Human: " + message + "Human: " + message + "\n" + ReplyCue
  {
    var b := Base(h, systemPrompt);
    assert BeginTurn(h, systemPrompt, message) == b + [Message(User, message)];
    FormatUserTurn(b, systemPrompt, message);
    PromptConcat(Render(b), message);
  }

  /** After a well-shaped non-empty log and a user message ending in a
      non-space, the formatted text is the rendering of the log followed by
      the user's line without its newline. */
  lemma FormatUserTurn(b: seq<Message>, systemPrompt: string, message: string)
    requires WellShaped(b, systemPrompt) && b != []
    requires message != [] && !IsSpace(message[|message| - 1])
    ensures Format(b + [Message(User, message)]) == Render(b) + ("Human: " + message)
  {
    FormatAfterUser(b, message);
    RenderStartsWithSystem(b, systemPrompt);
    var x := Render(b) + ("Human: " + message);
    StripLeftStopsAt([], x);
    assert [] + x == x;
  }

  /** Proof step: the formatted log ending in the user's line, then the turn
      prompt, regrouped. */
  lemma PromptConcat(r: string, message: string)
    ensures (r + ("Human: " + message)) + TurnPrompt(message) ==
      r + "Human: " + message + "Human: " + message + "\n" + ReplyCue
  {
  }

  /** Every prefix of a well-shaped log is well shaped. */
  lemma WellShapedInit(h: seq<Message>, systemPrompt: string)
    requires WellShaped(h, systemPrompt) && h != []
    ensures WellShaped(h[..|h| - 1], systemPrompt)
  {
    var init := h[..|h| - 1];
    forall i | 1 <= i < |init|
      ensures init[i].role == User || (init[i].role == Assistant && init[i - 1].role == User)
    {
      assert init[i] == h[i] && init[i - 1] == h[i - 1];
    }
  }

  /** On a well-shaped log whose last message ends in a non-space
      character, `strip` removes exactly the final newline: the prompt text
      is every message's line, in order, without the last line's newline. */
  lemma FormatDropsFinalNewline(h: seq<Message>, systemPrompt: string)
    requires WellShaped(h, systemPrompt) && h != []
    requires var c := h[|h| - 1].content; c != [] && !IsSpace(c[|c| - 1])
    ensures Format(h) + "\n" == Render(h)
  {
    var x := RenderSplitLast(h, systemPrompt);
    StripRightDropsSpace(x, "\n");
    StripLeftStopsAt([], x);
    assert [] + x == x;
  }

  /** A well-shaped log's rendering is a text `x` starting with 'S' and
      ending with the last message's text, then one newline. */
  lemma RenderSplitLast(h: seq<Message>, systemPrompt: string) returns (x: string)
    requires WellShaped(h, systemPrompt) && h != []
    requires h[|h| - 1].content != []
    ensures Render(h) == x + "\n"
    ensures x != [] && x[0] == 'S'
    ensures x[|x| - 1] == h[|h| - 1].content[|h[|h| - 1].content| - 1]
  {
    var init, last := h[..|h| - 1], h[|h| - 1];
    assert h == init + [last];
    RenderSnoc(init, last);
    assert !last.role.Other? by {
      if |h| > 1 {
        assert h[|h| - 1].role == User || h[|h| - 1].role == Assistant;
      }
    }
    var line := Speaker(last.role) + last.content;
    x := Render(init) + line;
    assert Render(init) + (line + "\n") == x + "\n";
    if init == [] {
      assert x == line;
      assert line[0] == Speaker(last.role)[0];
    } else {
      WellShapedInit(h, systemPrompt);
      RenderStartsWithSystem(init, systemPrompt);
      assert x[0] == Render(init)[0];
    }
  }
}
