/** The system instruction the search route sends to the language model:
    a fixed role description, the conversation so far rendered one turn per
    line, and a fixed trailer (route.ts, lines 26-42). */
module Prompt {
  import opened Types
  import opened Strings

  /** One prior chat turn, as the client sends it. A turn whose text is
      `null` renders exactly as one with the text "null". */
  datatype Turn = Turn(text: string, isUser: bool)

  /** The label in front of a turn's text. */
  function Speaker(isUser: bool): string {
    if isUser then "User" else "Assistant"
  }

  /** A turn rendered as `"<speaker>: <text>"`. */
  function Line(turn: Turn): string {
    Speaker(turn.isUser) + ": " + turn.text
  }

  /** One rendered line per turn, in chronological order (the `.map`). */
  function Lines(history: seq<Turn>): (lines: seq<string>)
    ensures |lines| == |history|
    ensures forall i :: 0 <= i < |history| ==> lines[i] == Line(history[i])
    decreases |history|
  {
    if |history| == 0 then [] else [Line(history[0])] + Lines(history[1..])
  }

  /** The conversation as embedded in the prompt: the lines joined by
      newlines (the `.join("\n")`). */
  function Transcript(history: seq<Turn>): string {
    Join(Lines(history), '\n')
  }

  const PromptHead: string :=
    "You are an accommodation search assistant. Your job:\n\n"
    + "1. If user preferences are incomplete, ask ONE clarifying question. "
    + "You need location, budget, and type of accommodation (PG, flat, or hostel).\n"
    + "2. If you have enough info (location + budget + type), perform a web search "
    + "to find real-time accommodation listings.\n"
    + "3. Present results in a structured format.\n"
    + "4. Never make up listings - only show real search results.\n\n"
    + "Current conversation:\n"

  const PromptTail: string :=
    "\n\nUser preferences collected:\n- Location:\n- Budget:\n- Type:\n"

  /** The system instruction for a request with the given history. */
  function SystemPrompt(history: seq<Turn>): string {
    PromptHead + Transcript(history) + PromptTail
  }

  /** No turn's text holds a line break. */
  ghost predicate SingleLineTexts(history: seq<Turn>) {
    forall i :: 0 <= i < |history| ==> '\n' !in history[i].text
  }

  /** Recognises a rendered line and recovers its turn. */
  function ParseLine(line: string): Option<Turn> {
    if StartsWith(line, "User: ") then Some(Turn(line[6..], true))
    else if StartsWith(line, "Assistant: ") then Some(Turn(line[11..], false))
    else None
  }

  function ParseLines(lines: seq<string>): Option<seq<Turn>>
    decreases |lines|
  {
    if |lines| == 0 then Some([])
    else
      match ParseLine(lines[0])
      case None => None
      case Some(t) =>
        match ParseLines(lines[1..])
        case None => None
        case Some(ts) => Some([t] + ts)
  }

  /** Reads a transcript back into turns; the empty transcript is the empty
      history. */
  function ParseTranscript(s: string): Option<seq<Turn>> {
    if s == "" then Some([]) else ParseLines(Split(s, '\n'))
  }

  lemma ParseLineInverse(turn: Turn)
    ensures ParseLine(Line(turn)) == Some(turn)
  {
    var line := Line(turn);
    if turn.isUser {
      assert line[..6] == "User: " && line[6..] == turn.text;
    } else {
      assert line[0] == 'A';
      assert line[..11] == "Assistant: " && line[11..] == turn.text;
    }
  }

  lemma LineForm(turn: Turn)
    ensures Line(turn) == (if turn.isUser then "User: " else "Assistant: ") + turn.text
  {
  }

  lemma LineSingle(turn: Turn)
    requires '\n' !in turn.text
    ensures '\n' !in Line(turn) && |Line(turn)| > 0
  {
    assert '\n' !in Speaker(turn.isUser) + ": ";
  }

  /** The lines of a non-empty history: the first turn's line, then the
      lines of the rest. */
  lemma LinesCons(history: seq<Turn>)
    requires |history| > 0
    ensures Lines(history) == [Line(history[0])] + Lines(history[1..])
  {
  }

  lemma ParseLinesCons(line: string, rest: seq<string>, turn: Turn, turns: seq<Turn>)
    requires ParseLine(line) == Some(turn) && ParseLines(rest) == Some(turns)
    ensures ParseLines([line] + rest) == Some([turn] + turns)
  {
    assert ([line] + rest)[0] == line && ([line] + rest)[1..] == rest;
  }

  lemma {:induction false} ParseLinesInverse(history: seq<Turn>)
    ensures ParseLines(Lines(history)) == Some(history)
    decreases |history|
  {
    if |history| > 0 {
      LinesCons(history);
      ParseLineInverse(history[0]);
      ParseLinesInverse(history[1..]);
      ParseLinesCons(Line(history[0]), Lines(history[1..]), history[0], history[1..]);
      assert [history[0]] + history[1..] == history;
    }
  }

  /** The transcript has exactly one line per turn, in order: splitting it at
      line breaks gives `"User: " + text` or `"Assistant: " + text` for each
      turn, and n turns carry n - 1 line breaks. */
  lemma TranscriptLines(history: seq<Turn>)
    requires |history| >= 1 && SingleLineTexts(history)
    ensures Split(Transcript(history), '\n') == Lines(history)
    ensures forall i :: 0 <= i < |history| ==>
      Split(Transcript(history), '\n')[i]
        == (if history[i].isUser then "User: " else "Assistant: ") + history[i].text
    ensures Count(Transcript(history), '\n') == |history| - 1
  {
    var lines := Lines(history);
    forall i | 0 <= i < |lines| ensures '\n' !in lines[i] {
      LineSingle(history[i]);
    }
    SplitJoin(lines, '\n');
    JoinSeparatorCount(lines, '\n');
    forall i | 0 <= i < |history|
      ensures lines[i] == (if history[i].isUser then "User: " else "Assistant: ") + history[i].text
    {
      LineForm(history[i]);
    }
  }

  /** Rendering loses nothing: a history whose texts are single lines is
      read back exactly from its transcript. */
  lemma TranscriptRoundTrip(history: seq<Turn>)
    requires SingleLineTexts(history)
    ensures ParseTranscript(Transcript(history)) == Some(history)
  {
    if |history| > 0 {
      TranscriptLines(history);
      LineSingle(history[0]);
      var s := Transcript(history);
      if |history| == 1 {
        assert s == Line(history[0]);
      } else {
        assert s == Line(history[0]) + ['\n'] + Join(Lines(history)[1..], '\n');
      }
      assert |s| > 0;
      ParseLinesInverse(history);
    }
  }

  /** Appending a turn to the history appends one line to the transcript:
      earlier turns keep their place and rendering. */
  lemma TranscriptAppend(history: seq<Turn>, turn: Turn)
    ensures Transcript(history + [turn])
      == if history == [] then Line(turn) else Transcript(history) + "\n" + Line(turn)
  {
    var lines := Lines(history + [turn]);
    assert lines == Lines(history) + [Line(turn)];
    if history != [] {
      JoinSnoc(Lines(history), Line(turn), '\n');
    }
  }

  /** Without the single-line premise the rendering is ambiguous: one turn
      whose text holds a line break and a speaker label gives the same
      instruction as two turns. */
  lemma MultilineTextIsAmbiguous()
    ensures SystemPrompt([Turn("a\nUser: b", true)])
         == SystemPrompt([Turn("a", true), Turn("b", true)])
  {
    var one, two := [Turn("a\nUser: b", true)], [Turn("a", true), Turn("b", true)];
    assert Line(one[0]) == "User: " + "a\nUser: b" == "User: a\nUser: b";
    assert Line(two[0]) == "User: a" && Line(two[1]) == "User: b";
    assert Lines(one) == ["User: a\nUser: b"];
    assert Lines(two) == ["User: a", "User: b"];
    assert Transcript(one) == "User: a" + "\n" + "User: b" == Transcript(two);
  }

  /** The transcript sits between the fixed head and trailer. */
  lemma PromptEmbedsTranscript(history: seq<Turn>)
    ensures var p := SystemPrompt(history);
      |p| == |PromptHead| + |Transcript(history)| + |PromptTail|
      && p[..|PromptHead|] == PromptHead
      && p[|PromptHead|..|p| - |PromptTail|] == Transcript(history)
      && p[|p| - |PromptTail|..] == PromptTail
  {
  }

  /** Different conversations (with single-line texts) yield different
      system instructions, so the model always sees the history sent. */
  lemma PromptDeterminesHistory(h1: seq<Turn>, h2: seq<Turn>)
    requires SingleLineTexts(h1) && SingleLineTexts(h2)
    requires SystemPrompt(h1) == SystemPrompt(h2)
    ensures h1 == h2
  {
    PromptEmbedsTranscript(h1);
    PromptEmbedsTranscript(h2);
    TranscriptRoundTrip(h1);
    TranscriptRoundTrip(h2);
  }
}
