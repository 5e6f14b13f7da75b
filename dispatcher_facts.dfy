/** Properties of the reply dispatcher: what each kind of chunk does, where
    every chunk ends up, how a whole section is rendered, and where the loop
    stops reading the stream. */
module DispatcherFacts {
  import opened Text
  import opened Dispatcher

  /** The texts routed to either sink (transcript or live panel), in order. */
  function SinkTexts(events: seq<Event>): seq<string> {
    if events == [] then []
    else (if IsSink(events[0]) then [events[0].text] else []) + SinkTexts(events[1..])
  }

  /** Each chunk appended to the transcript, in order. */
  function ToTranscript(chunks: seq<string>): seq<Event> {
    if chunks == [] then [] else [Transcript(chunks[0])] + ToTranscript(chunks[1..])
  }

  /** Each chunk appended to the open section's panel, in order. */
  function ToPanel(chunks: seq<string>): seq<Event> {
    if chunks == [] then [] else [PanelAppend(chunks[0])] + ToPanel(chunks[1..])
  }

  lemma {:induction false} SinkTextsAppend(a: seq<Event>, b: seq<Event>)
    ensures SinkTexts(a + b) == SinkTexts(a) + SinkTexts(b)
  {
    if a == [] {
      assert a + b == b;
    } else {
      assert (a + b)[0] == a[0];
      assert (a + b)[1..] == a[1..] + b;
      SinkTextsAppend(a[1..], b);
    }
  }

  // ---- one chunk ----

  /** A chunk carrying `<thinking>` opens the "Thinking Process" panel without
      flushing or resetting: whatever was accumulated carries over, whatever
      other markers the chunk holds. */
  lemma ThinkingNeverFlushes(s: DispatchState, chunk: string)
    requires Contains(chunk, ThinkingOpen)
    ensures Step(s, chunk).0 == DispatchState(Some(Thinking), s.content + chunk)
    ensures Step(s, chunk).1 == [PanelOpen("Thinking Process"), PanelAppend(chunk)]
  {
  }

  /** A chunk carrying `<analyzing>` (and not `<thinking>`) flushes the open
      section, if any, resets the accumulator and opens the "Analysis" panel. */
  lemma AnalyzingPreempts(s: DispatchState, chunk: string)
    requires Contains(chunk, AnalyzingOpen) && !Contains(chunk, ThinkingOpen)
    ensures Step(s, chunk).0 == DispatchState(Some(Analyzing), chunk)
    ensures Step(s, chunk).1 == Flush(s) + [PanelOpen("Analysis"), PanelAppend(chunk)]
  {
  }

  /** A chunk carrying a closing marker and no opening marker flushes the open
      section, if any, under the open section's own label, returns to no
      section, and itself goes to the transcript. */
  lemma CloseFlushes(s: DispatchState, chunk: string)
    requires HasClose(chunk) && !Contains(chunk, ThinkingOpen) && !Contains(chunk, AnalyzingOpen)
    ensures Step(s, chunk).0 == DispatchState(None, "")
    ensures Step(s, chunk).1 == Flush(s) + [Transcript(chunk)]
    ensures s.section.None? ==> Step(s, chunk).1 == [Transcript(chunk)]
  {
  }

  /** Every chunk reaches exactly one sink, as the last event of its step:
      the panel when a section is open after the marker tests, the transcript
      otherwise. The events before it (panel opening, flushed block) are not sinks. */
  lemma StepRoutesChunk(s: DispatchState, chunk: string)
    ensures var (t, e) := Step(s, chunk);
      |e| >= 1 &&
      e[|e| - 1] == (if t.section.Some? then PanelAppend(chunk) else Transcript(chunk)) &&
      (forall j :: 0 <= j < |e| - 1 ==> !IsSink(e[j])) &&
      SinkTexts(e) == [chunk]
  {
    var (t, e) := Step(s, chunk);
    var m := Mark(s, chunk).1;
    assert e == m + [e[|e| - 1]];
    assert forall j :: 0 <= j < |m| ==> !IsSink(m[j]);
    NoSinkTexts(m);
    SinkTextsAppend(m, [e[|e| - 1]]);
    assert SinkTexts([e[|e| - 1]]) == [chunk] by {
      assert [e[|e| - 1]][1..] == [];
    }
  }

  lemma {:induction false} NoSinkTexts(events: seq<Event>)
    requires forall j :: 0 <= j < |events| ==> !IsSink(events[j])
    ensures SinkTexts(events) == []
  {
    if events != [] {
      NoSinkTexts(events[1..]);
    }
  }

  // ---- whole runs ----

  /** Every chunk goes to exactly one sink, unchanged and in order. */
  lemma {:induction false} FeedRoutesEveryChunk(s: DispatchState, chunks: seq<string>)
    ensures SinkTexts(Feed(s, chunks).1) == chunks
    decreases |chunks|
  {
    if chunks == [] {
    } else {
      assert chunks == [chunks[0]] + chunks[1..];
      FeedCons(s, chunks[0], chunks[1..]);
      StepRoutesChunk(s, chunks[0]);
      FeedRoutesEveryChunk(Step(s, chunks[0]).0, chunks[1..]);
      SinkTextsAppend(Step(s, chunks[0]).1, Feed(Step(s, chunks[0]).0, chunks[1..]).1);
    }
  }

  /** A chunk with none of the four markers changes no section: it goes to
      the open section's panel and accumulator, or else to the transcript. */
  lemma MarkerFreeStep(s: DispatchState, chunk: string)
    requires MarkerFree(chunk)
    ensures Step(s, chunk) ==
      if s.section.Some? then
        (DispatchState(s.section, s.content + chunk), [PanelAppend(chunk)])
      else
        (s, [Transcript(chunk)])
  {
    assert Mark(s, chunk) == (s, []);
    assert [] + [PanelAppend(chunk)] == [PanelAppend(chunk)];
    assert [] + [Transcript(chunk)] == [Transcript(chunk)];
  }

  /** With no section open, chunks free of all four markers go to the
      transcript unchanged and in order, and no section opens; whatever
      follows them is dispatched from the same plain state. */
  lemma {:induction false} PlainPassThrough(s: DispatchState, chunks: seq<string>, rest: seq<string>)
    requires s.section.None? && s.content == ""
    requires forall i :: 0 <= i < |chunks| ==> MarkerFree(chunks[i])
    ensures Feed(s, chunks + rest).0 == Feed(s, rest).0
    ensures Feed(s, chunks + rest).1 == ToTranscript(chunks) + Feed(s, rest).1
    decreases |chunks|
  {
    if chunks == [] {
      assert chunks + rest == rest;
    } else {
      var c, cs := chunks[0], chunks[1..];
      SplitFirst(chunks, rest);
      MarkerFreeStep(s, c);
      FeedCons(s, c, cs + rest);
      PlainPassThrough(s, cs, rest);
      assert [Transcript(c)] + (ToTranscript(cs) + Feed(s, rest).1) ==
        ([Transcript(c)] + ToTranscript(cs)) + Feed(s, rest).1;
    }
  }

  /** With a section open, marker-free chunks go to its panel and are added
      to its accumulated content; the section stays open for what follows. */
  lemma OpenPassThrough(s: DispatchState, chunks: seq<string>, rest: seq<string>)
    requires s.section.Some?
    requires forall i :: 0 <= i < |chunks| ==> MarkerFree(chunks[i])
    ensures Feed(s, chunks + rest).0 == Feed(DispatchState(s.section, s.content + Concat(chunks)), rest).0
    ensures Feed(s, chunks + rest).1 == ToPanel(chunks) + Feed(DispatchState(s.section, s.content + Concat(chunks)), rest).1
  {
    OpenPassThroughState(s, chunks, rest);
    OpenPassThroughEvents(s, chunks, rest);
  }

  lemma {:induction false} OpenPassThroughState(s: DispatchState, chunks: seq<string>, rest: seq<string>)
    requires s.section.Some?
    requires forall i :: 0 <= i < |chunks| ==> MarkerFree(chunks[i])
    ensures Feed(s, chunks + rest).0 == Feed(DispatchState(s.section, s.content + Concat(chunks)), rest).0
    decreases |chunks|
  {
    if chunks == [] {
      assert chunks + rest == rest;
      assert DispatchState(s.section, s.content + Concat(chunks)) == s;
    } else {
      var c, cs := chunks[0], chunks[1..];
      var t := DispatchState(s.section, s.content + c);
      SplitFirst(chunks, rest);
      OpenFeedOne(s, c, cs + rest);
      OpenPassThroughState(t, cs, rest);
      ContentAfter(s, chunks);
    }
  }

  lemma {:induction false} OpenPassThroughEvents(s: DispatchState, chunks: seq<string>, rest: seq<string>)
    requires s.section.Some?
    requires forall i :: 0 <= i < |chunks| ==> MarkerFree(chunks[i])
    ensures Feed(s, chunks + rest).1 == ToPanel(chunks) + Feed(DispatchState(s.section, s.content + Concat(chunks)), rest).1
    decreases |chunks|
  {
    if chunks == [] {
      assert chunks + rest == rest;
      assert DispatchState(s.section, s.content + Concat(chunks)) == s;
    } else {
      var c, cs := chunks[0], chunks[1..];
      var t := DispatchState(s.section, s.content + c);
      var u := DispatchState(s.section, s.content + Concat(chunks));
      SplitFirst(chunks, rest);
      OpenFeedOne(s, c, cs + rest);
      OpenPassThroughEvents(t, cs, rest);
      ContentAfter(s, chunks);
      assert ToPanel(chunks) + Feed(u, rest).1 == [PanelAppend(c)] + (ToPanel(cs) + Feed(u, rest).1);
    }
  }

  /** Proof step: regrouping the accumulated content after the first chunk. */
  lemma ContentAfter(s: DispatchState, chunks: seq<string>)
    requires chunks != []
    ensures DispatchState(s.section, (s.content + chunks[0]) + Concat(chunks[1..])) ==
      DispatchState(s.section, s.content + Concat(chunks))
  {
    assert Concat(chunks) == chunks[0] + Concat(chunks[1..]);
    assert (s.content + chunks[0]) + Concat(chunks[1..]) == s.content + (chunks[0] + Concat(chunks[1..]));
  }

  /** Proof step: a non-empty run of chunks, then more, split after its first chunk. */
  lemma SplitFirst(chunks: seq<string>, rest: seq<string>)
    requires chunks != []
    ensures chunks + rest == [chunks[0]] + (chunks[1..] + rest)
  {
  }

  /** One marker-free chunk with a section open, followed by more chunks. */
  lemma OpenFeedOne(s: DispatchState, c: string, more: seq<string>)
    requires s.section.Some? && MarkerFree(c)
    ensures Feed(s, [c] + more).0 == Feed(DispatchState(s.section, s.content + c), more).0
    ensures Feed(s, [c] + more).1 == [PanelAppend(c)] + Feed(DispatchState(s.section, s.content + c), more).1
  {
    MarkerFreeStep(s, c);
    FeedCons(s, c, more);
  }

  /** The whole life of one section: an opening chunk for kind `k`, a
      marker-free body, then a chunk with a closing marker. The panel receives
      the opening chunk and the body; the block logged at the close holds
      them, after whatever a `<thinking>` opening carried over, labelled by
      `k` whichever closing marker appeared; the closing chunk itself goes to
      the transcript. Only `<analyzing>` flushes the section open before it. */
  lemma SectionLifecycle(s: DispatchState, k: Section, open: string, body: seq<string>, close: string)
    requires Settled(s)
    requires Contains(open, OpenMarker(k))
    requires k == Analyzing ==> !Contains(open, ThinkingOpen)
    requires forall i :: 0 <= i < |body| ==> MarkerFree(body[i])
    requires HasClose(close) && !Contains(close, ThinkingOpen) && !Contains(close, AnalyzingOpen)
    ensures Feed(s, [open] + body + [close]).0 == DispatchState(None, "")
    ensures Feed(s, [open] + body + [close]).1 ==
      (if k == Analyzing then Flush(s) else []) +
      [PanelOpen(Title(k)), PanelAppend(open)] + ToPanel(body) +
      [EndSection(k, (if k == Thinking then s.content else "") + open + Concat(body)), Transcript(close)]
  {
    var carried := if k == Thinking then s.content else "";
    var s1 := DispatchState(Some(k), carried + open);
    var e1 := (if k == Analyzing then Flush(s) else []) + [PanelOpen(Title(k)), PanelAppend(open)];
    OpenStep(s, k, open);
    SplitSection(open, body, close);
    FeedCons(s, open, body + [close]);
    OpenPassThrough(s1, body, [close]);
    var s2 := DispatchState(Some(k), carried + open + Concat(body));
    var e3 := [EndSection(k, carried + open + Concat(body)), Transcript(close)];
    CloseFeed(s2, close);
    assert Feed(s, [open] + body + [close]).1 == e1 + (ToPanel(body) + e3);
    EventsAssoc(e1, ToPanel(body), e3);
  }

  /** Proof step: a section's chunks regrouped as the opening chunk and the rest. */
  lemma SplitSection(open: string, body: seq<string>, close: string)
    ensures [open] + body + [close] == [open] + (body + [close])
  {
  }

  /** Proof step: concatenation of event runs regrouped. */
  lemma EventsAssoc(a: seq<Event>, b: seq<Event>, c: seq<Event>)
    ensures a + (b + c) == a + b + c
  {
  }

  /** The closing chunk, fed as the last one while kind `k` is open. */
  lemma CloseFeed(s: DispatchState, close: string)
    requires s.section.Some?
    requires HasClose(close) && !Contains(close, ThinkingOpen) && !Contains(close, AnalyzingOpen)
    ensures Feed(s, [close]).0 == DispatchState(None, "")
    ensures Feed(s, [close]).1 == [EndSection(s.section.value, s.content), Transcript(close)]
  {
    FeedCons(s, close, []);
    CloseFlushes(s, close);
    assert Feed(DispatchState(None, ""), []) == (DispatchState(None, ""), []);
  }

  /** The step on a section's opening chunk, for either kind. */
  lemma OpenStep(s: DispatchState, k: Section, open: string)
    requires Settled(s)
    requires Contains(open, OpenMarker(k))
    requires k == Analyzing ==> !Contains(open, ThinkingOpen)
    ensures Step(s, open).0 == DispatchState(Some(k), (if k == Thinking then s.content else "") + open)
    ensures Step(s, open).1 ==
      (if k == Analyzing then Flush(s) else []) + [PanelOpen(Title(k)), PanelAppend(open)]
  {
    if k == Thinking {
      ThinkingNeverFlushes(s, open);
      assert [] + [PanelOpen(Title(k)), PanelAppend(open)] == [PanelOpen(Title(k)), PanelAppend(open)];
    } else {
      AnalyzingPreempts(s, open);
    }
  }

  /** `["<thinking>", "abc", "</thinking>"]`, the last record final: the
      panel gets the first two chunks, the block holds them (the opening
      marker included) under the label "Thinking", and the closing chunk goes
      to the transcript. */
  lemma ThinkingExample()
    ensures Dispatch([Record(Some("<thinking>"), Some(false)), Record(Some("abc"), None),
                      Record(Some("</thinking>"), Some(true))]) ==
      (DispatchState(None, ""),
       [PanelOpen("Thinking Process"), PanelAppend("<thinking>"), PanelAppend("abc"),
        Block("thinking", "Thinking:\n<thinking>abc"), Transcript("</thinking>")])
  {
    var lines := [Record(Some("<thinking>"), Some(false)), Record(Some("abc"), None),
                  Record(Some("</thinking>"), Some(true))];
    assert Chunks(lines[2..]) == ["</thinking>"];
    assert Chunks(lines[1..]) == ["abc", "</thinking>"];
    assert Chunks(lines) == ["<thinking>", "abc", "</thinking>"];
    ThinkingExampleFeed();
  }

  lemma ThinkingExampleFeed()
    ensures Feed(Initial, ["<thinking>", "abc", "</thinking>"]).0 == DispatchState(None, "")
    ensures Feed(Initial, ["<thinking>", "abc", "</thinking>"]).1 ==
      [PanelOpen("Thinking Process"), PanelAppend("<thinking>"), PanelAppend("abc"),
       Block("thinking", "Thinking:\n<thinking>abc"), Transcript("</thinking>")]
  {
    ExampleMarkers();
    SectionLifecycle(Initial, Thinking, "<thinking>", ["abc"], "</thinking>");
    ExampleEvents();
    assert ["<thinking>", "abc", "</thinking>"] == ["<thinking>"] + ["abc"] + ["</thinking>"];
  }

  /** The events of the example's section, written out. */
  lemma ExampleEvents()
    ensures (if Thinking == Analyzing then Flush(Initial) else []) +
      [PanelOpen(Title(Thinking)), PanelAppend("<thinking>")] + ToPanel(["abc"]) +
      [EndSection(Thinking, (if Thinking == Thinking then Initial.content else "") + "<thinking>" + Concat(["abc"])),
       Transcript("</thinking>")] ==
      [PanelOpen("Thinking Process"), PanelAppend("<thinking>"), PanelAppend("abc"),
       Block("thinking", "Thinking:\n<thinking>abc"), Transcript("</thinking>")]
  {
    assert Concat(["abc"]) == "abc";
    assert ToPanel(["abc"]) == [PanelAppend("abc")];
    assert Initial.content + "<thinking>" + "abc" == "<thinking>abc";
    assert Label(Thinking) + ":\n" + "<thinking>abc" == "Thinking:\n<thinking>abc";
  }

  /** The marker tests on the example's chunks. */
  lemma ExampleMarkers()
    ensures Contains("<thinking>", ThinkingOpen)
    ensures MarkerFree("abc")
    ensures HasClose("</thinking>")
    ensures !Contains("</thinking>", ThinkingOpen) && !Contains("</thinking>", AnalyzingOpen)
  {
    assert OccursAt("<thinking>", ThinkingOpen, 0);
    assert OccursAt("</thinking>", ThinkingClose, 0);
    forall i | 0 <= i <= 1 ensures !OccursAt("</thinking>", ThinkingOpen, i) {
      assert "</thinking>"[i..i + 10][1 - i] != ThinkingOpen[1 - i];
    }
    assert "</thinking>"[0..11][1] != AnalyzingOpen[1];
  }

  // ---- where the loop stops ----

  /** Reference definition: the chunk of every non-blank line, in order. */
  function AllChunks(lines: seq<Line>): seq<string> {
    if lines == [] then []
    else
      var last := lines[|lines| - 1];
      AllChunks(lines[..|lines| - 1]) + (if last.Record? then [ChunkOf(last)] else [])
  }

  lemma {:induction false} AllChunksCons(lines: seq<Line>)
    requires lines != []
    ensures AllChunks(lines) == (if lines[0].Record? then [ChunkOf(lines[0])] else []) + AllChunks(lines[1..])
    decreases |lines|
  {
    if |lines| > 1 {
      var init := lines[..|lines| - 1];
      AllChunksCons(init);
      assert init[1..] == lines[1..][..|lines[1..]| - 1];
      assert init[0] == lines[0];
    } else {
      assert lines[..0] == [] && lines[1..] == [];
    }
  }

  /** A stream with no final record is read to its end: every non-blank line
      contributes its chunk. */
  lemma {:induction false} ReadsAllWithoutFinal(lines: seq<Line>)
    requires forall i :: 0 <= i < |lines| ==> !IsFinal(lines[i])
    ensures Chunks(lines) == AllChunks(lines)
    decreases |lines|
  {
    if lines != [] {
      AllChunksCons(lines);
      ReadsAllWithoutFinal(lines[1..]);
    }
  }

  /** Reading stops after the first record whose `done` is true; its chunk is
      still processed (as the last one), and nothing after it is read. */
  lemma {:induction false} StopsAtFirstFinal(lines: seq<Line>, k: nat)
    requires k < |lines| && IsFinal(lines[k])
    requires forall j :: 0 <= j < k ==> !IsFinal(lines[j])
    ensures Chunks(lines) == AllChunks(lines[..k]) + [ChunkOf(lines[k])]
    ensures Chunks(lines) == Chunks(lines[..k + 1])
    decreases k
  {
    if k == 0 {
      assert lines[..1] == [lines[0]];
      assert lines[..0] == [];
    } else {
      StopsAtFirstFinal(lines[1..], k - 1);
      assert lines[1..][..k - 1] == lines[..k][1..];
      assert lines[1..][..k] == lines[..k + 1][1..];
      AllChunksCons(lines[..k]);
      assert lines[..k][0] == lines[0];
    }
  }

  /** The whole loop: every chunk it reads goes to exactly one sink, in
      order, and it ends with nothing accumulated unless a section is open. */
  lemma DispatchRoutesEveryChunk(lines: seq<Line>)
    ensures SinkTexts(Dispatch(lines).1) == Chunks(lines)
    ensures Settled(Dispatch(lines).0)
  {
    FeedRoutesEveryChunk(Initial, Chunks(lines));
  }

  /** A reply without any of the four markers is forwarded unchanged, in
      order, to the transcript, and no section ever opens. */
  lemma DispatchMarkerFree(lines: seq<Line>)
    requires forall i :: 0 <= i < |lines| && lines[i].Record? ==> MarkerFree(ChunkOf(lines[i]))
    ensures Dispatch(lines).0 == Initial
    ensures Dispatch(lines).1 == ToTranscript(Chunks(lines))
  {
    ChunksMarkerFree(lines);
    PlainPassThrough(Initial, Chunks(lines), []);
    assert Chunks(lines) + [] == Chunks(lines);
    assert Feed(Initial, []) == (Initial, []);
    assert ToTranscript(Chunks(lines)) + [] == ToTranscript(Chunks(lines));
  }

  lemma {:induction false} ChunksMarkerFree(lines: seq<Line>)
    requires forall i :: 0 <= i < |lines| && lines[i].Record? ==> MarkerFree(ChunkOf(lines[i]))
    ensures forall i :: 0 <= i < |Chunks(lines)| ==> MarkerFree(Chunks(lines)[i])
    decreases |lines|
  {
    if lines != [] {
      ChunksMarkerFree(lines[1..]);
      assert forall i :: 0 <= i < |lines[1..]| && lines[1..][i].Record? ==> lines[1..][i] == lines[i + 1];
    }
  }
}
