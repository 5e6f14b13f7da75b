/** The streaming reply dispatcher of `stream_response`: every chunk of the
    model's reply is classified by substring tests for the four section
    markers and routed either to the live section panel or to the main
    transcript; a section that closes is emitted as one labelled block.

    `Step` is the specification of one iteration of the loop, `Feed` of a run
    of iterations, `Chunks` of which decoded lines the loop consumes, and
    `DispatchStream` is the loop itself, proved to agree with them. */
module Dispatcher {
  import opened Text

  datatype Option<T> = None | Some(value: T)

  /** One line of the newline-delimited JSON reply, already decoded.
      `Blank` is an empty line; a record's keys may be missing. */
  datatype Line = Blank | Record(response: Option<string>, done: Option<bool>)

  /** `data.get('response', '')` */
  function ChunkOf(line: Line): string
    requires line.Record?
  {
    if line.response.Some? then line.response.value else ""
  }

  /** `data.get('done', False)` is true. */
  predicate IsFinal(line: Line) {
    line.Record? && line.done == Some(true)
  }

  datatype Section = Thinking | Analyzing

  const ThinkingOpen := "<thinking>"
  const AnalyzingOpen := "<analyzing>"
  const ThinkingClose := "</thinking>"
  const AnalyzingClose := "</analyzing>"

  /** The value stored in `current_section`, also the chat-log tag of its block. */
  function Name(k: Section): string {
    match k
    case Thinking => "thinking"
    case Analyzing => "analyzing"
  }

  /** The opening marker that selects each section. */
  function OpenMarker(k: Section): string {
    match k
    case Thinking => ThinkingOpen
    case Analyzing => AnalyzingOpen
  }

  /** The title of the panel `start_section_display` opens for each section. */
  function Title(k: Section): string {
    match k
    case Thinking => "Thinking Process"
    case Analyzing => "Analysis"
  }

  /** What the dispatcher sends to the presentation surface, in order. */
  datatype Event =
    | Transcript(text: string)          // update_chat_log: chunk appended to the main log
    | PanelOpen(title: string)          // start_section_display: a new section panel
    | PanelAppend(text: string)         // update_section_content: chunk appended to the panel
    | Block(tag: string, text: string)  // end_section_display: panel destroyed, labelled block logged
    | NoResponse(text: string)          // the error line for an empty reply
    | Notice(text: string)              // an untagged line of the client's own

  predicate IsSink(e: Event) {
    e.Transcript? || e.PanelAppend?
  }

  /** The label of a flushed block, `section_type.capitalize()`. */
  function Label(k: Section): string {
    match k
    case Thinking => "Thinking"
    case Analyzing => "Analyzing"
  }

  /** The label is the capitalized section name, as `str.capitalize` gives it. */
  lemma LabelIsCapitalizedName(k: Section)
    ensures Label(k) == Capitalize(Name(k))
  {
    var r := Label(k);
    assert Upper(Name(k)[0]) == r[0];
    forall i | 0 < i < |r| ensures r[i] == Lower(Name(k)[i]) { }
  }

  /** `end_section_display(section_type, content)`: the block is tagged and
      labelled by the section kind. */
  function EndSection(k: Section, content: string): (e: Event)
    ensures e.Block? && e.tag == Name(k) && !IsSink(e)
    ensures |e.text| == |Name(k)| + 2 + |content| && e.text[|Name(k)| + 2..] == content
    ensures e.text[..|Name(k)| + 2] == Capitalize(Name(k)) + ":\n"
  {
    LabelIsCapitalizedName(k);
    Block(Name(k), Label(k) + ":\n" + content)
  }

  /** Two of the loop variables, `current_section` and `section_content`;
      the third, `full_response`, is the concatenation of every chunk read. */
  datatype DispatchState = DispatchState(section: Option<Section>, content: string)

  const Initial := DispatchState(None, "")

  /** No section open means nothing is accumulated: the invariant the loop keeps. */
  predicate Settled(s: DispatchState) {
    s.section.None? ==> s.content == ""
  }

  /** The block emitted when the open section (if any) is closed or preempted. */
  function Flush(s: DispatchState): (r: seq<Event>)
    ensures |r| <= 1 && (r != [] <==> s.section.Some?)
    ensures r != [] ==> r[0].Block? && r[0].tag == Name(s.section.value)
  {
    if s.section.Some? then [EndSection(s.section.value, s.content)] else []
  }

  predicate HasClose(chunk: string) {
    Contains(chunk, ThinkingClose) || Contains(chunk, AnalyzingClose)
  }

  predicate MarkerFree(chunk: string) {
    !Contains(chunk, ThinkingOpen) && !Contains(chunk, AnalyzingOpen) && !HasClose(chunk)
  }

  /** The marker tests of one iteration, in their order of precedence: the
      state and the events they produce before the chunk itself is routed. */
  function Mark(s: DispatchState, chunk: string): (r: (DispatchState, seq<Event>))
    ensures forall j :: 0 <= j < |r.1| ==> !IsSink(r.1[j])
    ensures forall j :: 0 <= j < |r.1| ==> r.1[j].PanelOpen? || r.1[j].Block?
    ensures MarkerFree(chunk) ==> r == (s, [])
    ensures Settled(s) ==> Settled(r.0)
  {
    if Contains(chunk, ThinkingOpen) then
      (DispatchState(Some(Thinking), s.content), [PanelOpen(Title(Thinking))])
    else if Contains(chunk, AnalyzingOpen) then
      (DispatchState(Some(Analyzing), ""), Flush(s) + [PanelOpen(Title(Analyzing))])
    else if HasClose(chunk) then
      (DispatchState(None, ""), Flush(s))
    else
      (s, [])
  }

  /** One iteration of the loop on a chunk: the marker tests, then the chunk
      goes to the panel if a section is open and to the transcript otherwise. */
  function Step(s: DispatchState, chunk: string): (r: (DispatchState, seq<Event>))
    ensures Settled(s) ==> Settled(r.0)
  {
    var m := Mark(s, chunk);
    if m.0.section.Some? then
      (DispatchState(m.0.section, m.0.content + chunk), m.1 + [PanelAppend(chunk)])
    else
      (m.0, m.1 + [Transcript(chunk)])
  }

  /** The loop run over a sequence of chunks: final state and every event, in order. */
  function Feed(s: DispatchState, chunks: seq<string>): (r: (DispatchState, seq<Event>))
    decreases |chunks|
  {
    if chunks == [] then (s, [])
    else
      var first := Step(s, chunks[0]);
      var rest := Feed(first.0, chunks[1..]);
      (rest.0, first.1 + rest.1)
  }

  /** The chunks the loop processes: one per non-blank line, up to and
      including the first line whose `done` is true. */
  function Chunks(lines: seq<Line>): (r: seq<string>)
    ensures |r| <= |lines|
  {
    if lines == [] then []
    else if lines[0].Blank? then Chunks(lines[1..])
    else [ChunkOf(lines[0])] + (if IsFinal(lines[0]) then [] else Chunks(lines[1..]))
  }

  /** Feeding one chunk and then the rest is feeding them all. */
  lemma FeedCons(s: DispatchState, chunk: string, rest: seq<string>)
    ensures Feed(s, [chunk] + rest).0 == Feed(Step(s, chunk).0, rest).0
    ensures Feed(s, [chunk] + rest).1 == Step(s, chunk).1 + Feed(Step(s, chunk).0, rest).1
  {
    assert ([chunk] + rest)[0] == chunk && ([chunk] + rest)[1..] == rest;
  }

  /** The whole of `stream_response`'s loop, from the initial state. */
  function Dispatch(lines: seq<Line>): (r: (DispatchState, seq<Event>))
    ensures Settled(r.0)
  {
    FeedKeepsSettled(Initial, Chunks(lines));
    Feed(Initial, Chunks(lines))
  }

  /** With no section open nothing is accumulated, and every step keeps it so. */
  lemma {:induction false} FeedKeepsSettled(s: DispatchState, chunks: seq<string>)
    requires Settled(s)
    ensures Settled(Feed(s, chunks).0)
    decreases |chunks|
  {
    if chunks != [] {
      assert chunks == [chunks[0]] + chunks[1..];
      FeedCons(s, chunks[0], chunks[1..]);
      FeedKeepsSettled(Step(s, chunks[0]).0, chunks[1..]);
    }
  }

  /** The body of `stream_response`'s loop for one chunk: the marker tests,
      then the routing of the chunk to the panel or the transcript. */
  method Route(section0: Option<Section>, content0: string, chunk: string)
    returns (section: Option<Section>, content: string, emitted: seq<Event>)
    ensures (DispatchState(section, content), emitted) == Step(DispatchState(section0, content0), chunk)
  {
    section, content, emitted := section0, content0, [];
    if Contains(chunk, ThinkingOpen) {
      section := Some(Thinking);
      emitted := emitted + [PanelOpen(Title(Thinking))];
    } else if Contains(chunk, AnalyzingOpen) {
      if section.Some? {
        emitted := emitted + [EndSection(section.value, content)];
      }
      section := Some(Analyzing);
      content := "";
      emitted := emitted + [PanelOpen(Title(Analyzing))];
    } else if Contains(chunk, ThinkingClose) || Contains(chunk, AnalyzingClose) {
      if section.Some? {
        emitted := emitted + [EndSection(section.value, content)];
      }
      section := None;
      content := "";
    }
    if section.Some? {
      content := content + chunk;
      emitted := emitted + [PanelAppend(chunk)];
    } else {
      emitted := emitted + [Transcript(chunk)];
    }
    ghost var step := Step(DispatchState(section0, content0), chunk);
    assert section == step.0.section && content == step.0.content;
    assert emitted == step.1;
  }

  /** The loop of `stream_response`, with its three local variables and the
      events it sends to the presentation surface. */
  method DispatchStream(lines: seq<Line>)
    returns (section: Option<Section>, content: string, full: string, events: seq<Event>)
    ensures (DispatchState(section, content), events) == Dispatch(lines)
    ensures full == Concat(Chunks(lines))
  {
    full, section, content, events := "", None, "", [];
    ghost var consumed: seq<string> := [];
    var i := 0;
    while i < |lines|
      invariant 0 <= i <= |lines|
      invariant Dispatch(lines).0 == Feed(DispatchState(section, content), Chunks(lines[i..])).0
      invariant Dispatch(lines).1 == events + Feed(DispatchState(section, content), Chunks(lines[i..])).1
      invariant Chunks(lines) == consumed + Chunks(lines[i..])
      invariant full == Concat(consumed)
    {
      var line := lines[i];
      if line.Record? {
        var chunk := ChunkOf(line);
        ghost var before := DispatchState(section, content);
        Advance(lines, i, before, events);
        AdvanceConsumed(lines, i, consumed);
        ConcatAppend(consumed, [chunk]);
        assert Concat([chunk]) == chunk + "" == chunk;
        consumed := consumed + [chunk];
        full := full + chunk;
        var emitted;
        section, content, emitted := Route(section, content, chunk);
        events := events + emitted;
        if IsFinal(line) {
          EndOfFeed(DispatchState(section, content));
          assert events + [] == events && consumed + [] == consumed;
          assert Dispatch(lines).0 == DispatchState(section, content);
          assert Dispatch(lines).1 == events;
          break;
        }
      } else {
        ChunksAt(lines, i);
      }
      i := i + 1;
    }
    if i == |lines| {
      assert lines[i..] == [];
      EndOfFeed(DispatchState(section, content));
      assert events + [] == events && consumed + [] == consumed;
      assert Dispatch(lines).0 == DispatchState(section, content);
      assert Dispatch(lines).1 == events;
    }
  }

  /** Feeding nothing changes nothing. */
  lemma EndOfFeed(s: DispatchState)
    ensures Feed(s, []) == (s, [])
  {
  }

  /** What one record line contributes to the events: its chunk is stepped
      through, and reading goes on with the following lines unless the record
      is final. */
  lemma Advance(lines: seq<Line>, i: nat, s: DispatchState, events: seq<Event>)
    requires i < |lines| && lines[i].Record?
    requires Dispatch(lines).0 == Feed(s, Chunks(lines[i..])).0
    requires Dispatch(lines).1 == events + Feed(s, Chunks(lines[i..])).1
    ensures var chunk := ChunkOf(lines[i]);
      var rest := if IsFinal(lines[i]) then [] else Chunks(lines[i + 1..]);
      Dispatch(lines).0 == Feed(Step(s, chunk).0, rest).0
    ensures var chunk := ChunkOf(lines[i]);
      var rest := if IsFinal(lines[i]) then [] else Chunks(lines[i + 1..]);
      Dispatch(lines).1 == (events + Step(s, chunk).1) + Feed(Step(s, chunk).0, rest).1
  {
    var chunk := ChunkOf(lines[i]);
    var rest := if IsFinal(lines[i]) then [] else Chunks(lines[i + 1..]);
    ChunksAt(lines, i);
    FeedCons(s, chunk, rest);
  }

  /** The chunks read so far, extended by one record line's chunk, followed
      by what is still to be read after it. */
  lemma AdvanceConsumed(lines: seq<Line>, i: nat, consumed: seq<string>)
    requires i < |lines| && lines[i].Record?
    requires Chunks(lines) == consumed + Chunks(lines[i..])
    ensures var rest := if IsFinal(lines[i]) then [] else Chunks(lines[i + 1..]);
      Chunks(lines) == (consumed + [ChunkOf(lines[i])]) + rest
  {
    ChunksAt(lines, i);
  }

  lemma ChunksAt(lines: seq<Line>, i: nat)
    requires i < |lines|
    ensures Chunks(lines[i..]) ==
      if lines[i].Blank? then Chunks(lines[i + 1..])
      else [ChunkOf(lines[i])] + (if IsFinal(lines[i]) then [] else Chunks(lines[i + 1..]))
  {
    assert lines[i..][0] == lines[i] && lines[i..][1..] == lines[i + 1..];
  }
}
