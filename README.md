# Qwen2 chat client: reply dispatcher and conversation log

This project models the core of `qwenR.py`, a desktop chat client for a
local language-model server, and proves properties of the model. The core
has two parts.

- **The streaming reply dispatcher**, the loop of `stream_response`. Each
  decoded reply record carries a chunk of text. The loop tests each chunk
  for the four section markers `<thinking>`, `<analyzing>`, `</thinking>`
  and `</analyzing>`. It then routes the chunk either to the open section's
  live panel or to the main transcript, and at a section's end it logs the
  accumulated section text as one labelled block (`end_section_display`).
  The loop also accumulates `full_response` and stops after the first
  record whose `done` is true.
- **The conversation log and the prompt.** `process_and_send_to_ollama`
  adds the system message to an empty log, then the user's message.
  `stream_response` posts `format_conversation()` followed by the turn
  prompt, and adds the assistant's reply to the log when the reply is not
  empty. `format_conversation` renders each message on a labelled line and
  strips the result. `clear_chat` empties the log.

Modules:

- `Text` (`text.dfy`): Python string operations. These are `str.isspace`,
  `strip`/`lstrip`/`rstrip`, the substring test `marker in s`,
  `capitalize`, and `"".join`.
- `Dispatcher` (`dispatcher.dfy`): three specification functions and the
  loop itself.
  - `Step` is one iteration of the loop, `Feed` a run of iterations, and
    `Chunks` the chunks the loop reads.
  - `Route` is the loop body and `DispatchStream` is the loop, each a
    method proved equal to its specification.
  - The three loop variables stay locals of `DispatchStream`, as they are
    in the source.
- `DispatcherFacts` (`dispatcher_facts.dfy`): the dispatcher's properties.
- `Conversation` (`conversation.dfy`): the message log, its rendering, the
  `format_conversation` loop, and the shape of the log.
- `App` (`chat_app.dfy`): the class `ChatApp` holding the conversation log
  and the events sent to the chat window, with the client's operations as
  methods.

The code is modelled as written, including four quirks:

- A `<thinking>` chunk neither flushes nor resets the open section.
- The chunk with a closing marker goes to the transcript. It is not part
  of the flushed block.
- The user's message appears twice in the prompt, with no separator.
- The "no response" line appears when `full_response` is empty
  (`qwenR.py:178`), also when chunks arrived but all of them were empty.

## Model

| member | source | states |
|---|---|---|
| Text.StripLeftIsSuffix | qwenR.py:225 | `lstrip` keeps a suffix that does not start with whitespace; everything it drops is whitespace |
| Text.StripRightIsPrefix | qwenR.py:225 | `rstrip` keeps a prefix that does not end with whitespace; everything it drops is whitespace |
| Text.StripTrims | qwenR.py:225 | `strip` never lengthens, leaves no whitespace at either end, and gives "" exactly for all-whitespace input |
| Text.StripRightDropsSpace | qwenR.py:225 | text ending in a non-space, followed by whitespace, right-strips to that text |
| Text.StripLeftStopsAt | qwenR.py:225 | `lstrip` stops at the first non-space: `lstrip(a + b) == lstrip(a) + b` when `b` starts with a non-space |
| Text.Contains | qwenR.py:154-163 | `marker in s` needs the marker to be no longer than the text, and the empty marker is in every text |
| Text.Capitalize | qwenR.py:205 | `capitalize` keeps the length, upper-cases the first character and lower-cases the rest (ASCII letters) |
| Text.ConcatAppend | qwenR.py:152 | joining two runs of chunks is joining each run and concatenating the results |
| Dispatcher.LabelIsCapitalizedName | qwenR.py:205 | a block's label is `section_type.capitalize()`: "Thinking" or "Analyzing" |
| Dispatcher.Mark | qwenR.py:154-167 | the marker tests emit only panel openings and flushed blocks, never a sink event; a marker-free chunk changes nothing; a settled state stays settled |
| Dispatcher.Step | qwenR.py:154-173 | one iteration keeps "no section open means nothing accumulated" |
| Dispatcher.EndSection | qwenR.py:203-205 | the block is tagged with the section's name, is not a sink, and its text is the capitalized name (`str.capitalize`), ":\n", then exactly the section's content |
| Dispatcher.Flush | qwenR.py:158-165 | at most one block, emitted exactly when a section is open, tagged with that section's name |
| Dispatcher.Feed | qwenR.py:148-176 | the loop over a run of chunks, one `Step` per chunk; its equations are `FeedCons` and `EndOfFeed` |
| Dispatcher.Dispatch | qwenR.py:145-176 | the whole loop over a reply ends with nothing accumulated unless a section is open |
| Dispatcher.Chunks | qwenR.py:148-151 | at most one chunk per line is read; that blank lines give none and reading stops at the first final record is proved by `ReadsAllWithoutFinal` and `StopsAtFirstFinal` |
| Dispatcher.FeedCons | qwenR.py:148-176 | running the loop on one chunk and then the rest is running it on all of them |
| Dispatcher.Route | qwenR.py:154-173 | the loop body's marker tests and routing produce exactly the state and events of `Step` |
| Dispatcher.DispatchStream | qwenR.py:145-176 | the loop ends in the state and with the events of `Feed` over `Chunks(lines)`, and `full_response` is the concatenation of those chunks |
| Dispatcher.EndOfFeed | qwenR.py:148 | the loop over no chunks changes nothing and emits nothing |
| Dispatcher.Advance | qwenR.py:148-176 | a record line's chunk is stepped through, then reading continues after it unless the record is final |
| Dispatcher.AdvanceConsumed | qwenR.py:148-152 | the chunks read so far, plus a record line's chunk, plus the chunks after it, are all the chunks |
| Dispatcher.ChunksAt | qwenR.py:148-176 | a blank line gives no chunk; a record gives its chunk (`response`, default "") and ends reading if final |
| DispatcherFacts.SinkTextsAppend | qwenR.py:169-173 | the sink texts of two event runs are those of each run, in order |
| DispatcherFacts.NoSinkTexts | qwenR.py:156-165 | panel openings and blocks carry no sink text |
| DispatcherFacts.ThinkingNeverFlushes | qwenR.py:154-171 | a `<thinking>` chunk opens "Thinking Process" and emits nothing else; the accumulated text carries over with the chunk added, whatever other markers the chunk holds |
| DispatcherFacts.AnalyzingPreempts | qwenR.py:157-171 | an `<analyzing>` chunk without `<thinking>` flushes the open section (if any), resets the accumulator to the chunk and opens "Analysis" |
| DispatcherFacts.CloseFlushes | qwenR.py:163-173 | a closing-marker chunk without an opening marker flushes the open section under its own label, returns to no section and goes to the transcript; with no section open it only goes to the transcript |
| DispatcherFacts.StepRoutesChunk | qwenR.py:154-173 | every chunk reaches exactly one sink, as the step's last event: the panel when a section is open after the marker tests, the transcript otherwise |
| Dispatcher.FeedKeepsSettled | qwenR.py:166-167 | with no section open nothing is accumulated, before and after any run of chunks |
| DispatcherFacts.FeedRoutesEveryChunk | qwenR.py:148-173 | the sink texts of a run are exactly its chunks, in order |
| DispatcherFacts.MarkerFreeStep | qwenR.py:169-173 | a chunk with none of the four markers goes to the open panel and accumulator, or to the transcript, and changes no section |
| DispatcherFacts.PlainPassThrough | qwenR.py:154-173 | with no section open, marker-free chunks go to the transcript unchanged and in order, and no section opens |
| DispatcherFacts.OpenPassThrough | qwenR.py:169-171 | with a section open, marker-free chunks go to its panel and are appended to its content |
| DispatcherFacts.SectionLifecycle | qwenR.py:154-205 | opening chunk, marker-free body, closing chunk: the panel gets the opening chunk and body; the block holds them, after whatever a `<thinking>` opening carried over, under the kind's label whichever closing marker appears; the closing chunk goes to the transcript |
| DispatcherFacts.OpenPassThroughState | qwenR.py:169-171 | with a section open, marker-free chunks leave it open with its content extended by them |
| DispatcherFacts.OpenPassThroughEvents | qwenR.py:169-171 | with a section open, each marker-free chunk is appended to its panel, in order |
| DispatcherFacts.OpenFeedOne | qwenR.py:169-171 | one marker-free chunk with a section open goes to its panel and its content |
| DispatcherFacts.CloseFeed | qwenR.py:163-173 | a closing chunk fed last, with a section open, gives that section's block and then the chunk in the transcript |
| DispatcherFacts.OpenStep | qwenR.py:154-171 | an opening chunk of either kind: only `<analyzing>` flushes; both open their panel and receive the chunk |
| DispatcherFacts.ThinkingExample | qwenR.py:145-205 | `["<thinking>","abc","</thinking>"]` (last record final) logs the block "Thinking:\n<thinking>abc" and sends "</thinking>" to the transcript |
| DispatcherFacts.ThinkingExampleFeed | qwenR.py:154-173 | the same example as a run of chunks |
| DispatcherFacts.ExampleEvents | qwenR.py:203-205 | the example's block text written out |
| DispatcherFacts.ExampleMarkers | qwenR.py:154-163 | which markers each chunk of the example contains |
| DispatcherFacts.AllChunksCons | qwenR.py:148-151 | the reference chunk list, taken from the front |
| DispatcherFacts.ReadsAllWithoutFinal | qwenR.py:148-151 | with no final record, every non-blank line is read |
| DispatcherFacts.StopsAtFirstFinal | qwenR.py:148-176 | reading stops after the first final record; its chunk is the last one processed and nothing after it is read |
| DispatcherFacts.DispatchRoutesEveryChunk | qwenR.py:148-173 | over a whole reply, each chunk read goes to exactly one sink, in order, and nothing is accumulated outside a section |
| DispatcherFacts.DispatchMarkerFree | qwenR.py:148-173 | a reply without markers goes to the transcript unchanged and in order, and no section opens |
| DispatcherFacts.ChunksMarkerFree | qwenR.py:148-151 | if no record holds a marker, no chunk read does |
| Conversation.Render | qwenR.py:218-224 | the rendering is empty exactly when no message has a known role |
| Conversation.Format | qwenR.py:216-225 | the formatted text is no longer than the rendering and neither starts nor ends with whitespace |
| Conversation.Base | qwenR.py:120-121 | on a well-shaped log the turn starts from a non-empty well-shaped log whose first entry is the system message |
| Conversation.BeginTurn | qwenR.py:120-123 | the user turn keeps the old log as a prefix and ends with the user's message; it grows by two entries exactly when the log was empty, and then the first is the system message |
| Conversation.EndTurn | qwenR.py:178-179 | the log keeps its prefix and grows by one, the assistant's message, exactly when the reply is non-empty |
| Conversation.TurnPrompt | qwenR.py:125-128 | the turn prompt holds the message after "Human: " and is as long as the message, "Human: ", one newline and the reply cue |
| Conversation.FormatConversation | qwenR.py:216-225 | the loop's result is the stripped rendering: one labelled line per system, user or assistant message |
| Conversation.RenderAppend | qwenR.py:218-224 | rendering a log is rendering its parts in order |
| Conversation.RenderSnoc | qwenR.py:218-224 | each message adds exactly its own line at the end |
| Conversation.RenderSkipsUnknownRole | qwenR.py:219-224 | a message with any other role leaves the formatted text unchanged |
| Conversation.OnlyFirstIsSystem | qwenR.py:120-123 | in a well-shaped log the system message is the first entry and no other |
| Conversation.BeginTurnKeepsShape | qwenR.py:120-123 | a user turn keeps the log well shaped, has the system message first, and ends with the user's message |
| Conversation.EndTurnKeepsShape | qwenR.py:178-179 | recording the reply after a user message keeps the log well shaped, whether or not the reply is empty |
| Conversation.RenderStartsWithSystem | qwenR.py:219-220 | a well-shaped non-empty log renders starting with "S" |
| Conversation.WellShapedInit | qwenR.py:120-123 | dropping the last entry keeps a log well shaped |
| Conversation.FormatAfterUser | qwenR.py:216-225 | after a user message ending in a non-space, formatting drops only the final newline at the end |
| Conversation.PromptRepeatsMessage | qwenR.py:123-139 | the request prompt is the log up to the user's message, the message again with no separator, a newline and the reply cue |
| Conversation.FormatUserTurn | qwenR.py:216-225 | after a well-shaped log and a user message ending in a non-space, formatting keeps the whole rendering and drops only the final newline |
| Conversation.FormatDropsFinalNewline | qwenR.py:216-225 | on a well-shaped log whose last message ends in a non-space, the formatted text is the rendering without its final newline |
| Conversation.RenderSplitLast | qwenR.py:218-225 | a well-shaped log renders as text starting with "S", ending with the last message's last character, then a newline |
| App.ChatApp.constructor | qwenR.py:108-109 | the log starts empty and the window shows the welcome notice |
| App.ChatApp.ProcessAndSend | qwenR.py:118-130 | the request carries the formatted log of the turn, then the turn prompt; the log gets the system message if empty, the user's message, and the reply if not empty; the log stays well shaped |
| App.ChatApp.StreamResponse | qwenR.py:136-182 | the request is model "qwen2", the formatted log plus the prompt, streaming on; the window gets the dispatcher's events, then the error line if the reply is empty; the reply is recorded iff non-empty |
| App.ChatApp.ClearChat | qwenR.py:241-246 | the conversation history is empty and the events of the chat log restart with the cleared notice |
| App.ReplyRecordedIffNonEmpty | qwenR.py:178-179 | after a turn the log grows by the assistant's message exactly when the reply is non-empty, and stays well shaped |

## Left out

- Window construction, styling, panel widgets and colour tags (`qwenR.py:12-43, 184-201, 207-214, 227-239`). The presentation surface is the event sequence: `Transcript`, `PanelOpen`, `PanelAppend`, `Block`, `NoResponse` and `Notice`.
- `add_message` appends a blank line (`'\n\n'`) and logs a debug line. The model's `Block` and `Notice` events carry the message text without them.
- `send_message` (`qwenR.py:111-116`) is GUI glue. It strips the input, ignores an empty input, echoes "You: ..." and starts a thread. The lemmas about the prompt assume what it guarantees: a non-empty message that does not end in whitespace.
- Threads and `master.after` hand-offs (`qwenR.py:116, 195, 208`). The model is one sequential consumer, and events are in arrival order.
- Conversation.WellShaped: the log's shape, and `ProcessAndSend`'s `requires Valid()`, hold only when turns run one at a time and `clear_chat` does not interrupt a stream. The source does not enforce this: the Send and Clear Chat buttons stay live while the worker thread streams (`qwenR.py:42, 111-116`). A clear during a stream empties the history (`qwenR.py:245`), then the reply is appended (`qwenR.py:179`), leaving `[assistant]`. The next turn then never adds the system message (`qwenR.py:120`). Two overlapping sends can end with two assistant messages in a row. The model runs turns one after another and does not capture either interleaving.
- The HTTP request, `raise_for_status`, the timeout, `iter_lines` and `json.loads` (`qwenR.py:142-150`). The reply is a sequence of decoded lines: `Blank`, or a record with optional `response` and `done` keys. The request is returned as a value. The endpoint URL is not modelled.
- Exceptions and logging (`qwenR.py:132-134, 181`).
- The text of the system prompt (`qwenR.py:46-107`). It is a constructor parameter.
- Text.IsSpace: whitespace is Python's `str.isspace` set for Unicode code points, written out.
- Text.Capitalize: `str.capitalize` is modelled for ASCII letters only. The client applies it only to the section names "thinking" and "analyzing" (`qwenR.py:205`), where the two agree, as `Dispatcher.LabelIsCapitalizedName` shows.
- Conversation.Role: a role is one of the three roles the client writes, or `Other(name)` for any other string; `Other` is meant only for names other than "system", "user" and "assistant", and the type does not enforce that.
- App.ChatApp.ClearChat: `clear_chat` empties only the chat-log text (`qwenR.py:242-243`). Section panels are separate frames and survive it: a panel still open when a stream ended, or one orphaned when a second `<thinking>` chunk opens a new panel without destroying the old one (`qwenR.py:185-186, 204`). The model does not track which panels are on screen, so `log` records the events sent to the window, not what the window shows, and `ClearChat` restarts it.
- Dispatcher.DispatchStream: a section still open when the stream ends is never flushed, as in the source. No lemma states that case beyond the final state `Dispatch(lines).0`.
- A record whose `done` is a non-boolean truthy value is modelled only as `done == Some(true)`.
