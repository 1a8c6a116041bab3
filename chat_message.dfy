// One chat bubble: the typewriter that reveals a coach answer one character
// per tick, the thumbs-up / thumbs-down feedback it offers once the whole
// answer shows, and `formatContent`, which turns the shown text into list
// items and paragraphs line by line. The 20 ms interval is the gap between
// calls to Tick.

module ChatMessage {
  import opened Wrappers
  import opened Strings

  datatype FeedbackKind = Helpful | NotHelpful

  /** The coach answer's display state, from the message's first render. */
  class Typewriter {
    const content: string
    var displayedText: string
    var index: nat
    var running: bool
    var showFeedback: bool
    var feedback: Option<FeedbackKind>

    /**
     * The shown text is always the first `index` characters; the interval
     * runs only while characters remain to show or the last check is due,
     * and feedback appears once it has stopped on a non-empty answer.
     */
    predicate Valid()
      reads this
    {
      index <= |content| && displayedText == content[..index]
      && (running ==> |content| > 0 && !showFeedback)
      && (!running ==> index == |content| && (showFeedback <==> |content| > 0))
    }

    /** The effect starts the interval only for a non-empty answer. */
    constructor (content: string)
      ensures this.content == content && displayedText == "" && index == 0
      ensures running <==> content != ""
      ensures !showFeedback && feedback == None
      ensures Valid()
    {
      this.content := content;
      displayedText := "";
      index := 0;
      running := content != "";
      showFeedback := false;
      feedback := None;
    }

    /** One firing of the interval: show one more character, or stop and offer feedback. */
    method Tick()
      requires Valid()
      modifies this
      ensures Valid()
      ensures old(displayedText) <= displayedText <= content && |displayedText| <= |old(displayedText)| + 1
      ensures old(running) && old(index) < |content| ==> index == old(index) + 1 && running
      ensures old(running) && old(index) == |content| ==> !running && showFeedback && index == old(index)
      ensures !old(running) ==> index == old(index) && !running && showFeedback == old(showFeedback)
      ensures feedback == old(feedback)
    {
      if running {
        if index < |content| {
          displayedText := content[..index + 1];
          index := index + 1;
        } else {
          running := false;
          showFeedback := true;
        }
      }
    }

    /**
     * Fire the interval until it clears itself. From the first render that
     * is one tick per character and one more to stop.
     */
    method Play() returns (ticks: nat)
      requires Valid()
      modifies this
      ensures Valid() && !running && displayedText == content
      ensures showFeedback <==> content != ""
      ensures ticks == if old(running) then |content| - old(index) + 1 else 0
      ensures feedback == old(feedback)
    {
      ticks := 0;
      while running
        invariant Valid()
        invariant feedback == old(feedback)
        invariant running ==> index == old(index) + ticks
        invariant !running ==> ticks == if old(running) then |content| - old(index) + 1 else 0
        invariant old(running) || ticks == 0
        decreases |content| - index, running
      {
        Tick();
        ticks := ticks + 1;
      }
      assert content[..index] == content;
    }

    /** `handleFeedback`: remember the choice and tell the parent, when it listens, which message it was for. */
    method HandleFeedback(kind: FeedbackKind, messageId: int, parentListens: bool) returns (forwarded: Option<(int, FeedbackKind)>)
      modifies this
      ensures feedback == Some(kind)
      ensures forwarded == if parentListens then Some((messageId, kind)) else None
      ensures displayedText == old(displayedText) && index == old(index) && running == old(running)
      ensures showFeedback == old(showFeedback)
    {
      feedback := Some(kind);
      forwarded := if parentListens then Some((messageId, kind)) else None;
    }
  }

  /** User bubbles show their text as typed; coach bubbles show what the typewriter has revealed. */
  function BubbleText(isUser: bool, content: string, displayedText: string): (shown: string)
    ensures isUser ==> shown == content
    ensures !isUser ==> shown == displayedText
  {
    if isUser then content else displayedText
  }

  /** What one line of the shown text becomes. */
  datatype Block = ListItem(text: string) | Paragraph(text: string) | Nothing

  predicate IsMarker(c: char)
  {
    c == '•' || c == '-'
  }

  predicate StartsWithMarker(s: string)
  {
    |s| > 0 && IsMarker(s[0])
  }

  /** The `^[•-]\s*` replacement: a marker in the very first column and the white space after it go. */
  function StripMarker(line: string): (r: string)
    ensures StartsWithMarker(line) ==> r == TrimStart(line[1..])
    ensures !StartsWithMarker(line) ==> r == line
  {
    if StartsWithMarker(line) then TrimStart(line[1..]) else line
  }

  /**
   * A line whose trimmed form begins with a marker is a list item, with the
   * marker stripped from the line as it stands; an empty line gives nothing;
   * any other line, white space included, is a paragraph.
   */
  function Classify(line: string): (b: Block)
    ensures b.ListItem? <==> StartsWithMarker(Trim(line))
    ensures b.ListItem? ==> b.text == StripMarker(line)
    ensures b == Nothing <==> line == ""
    ensures b.Paragraph? ==> b.text == line
  {
    if StartsWithMarker(Trim(line)) then ListItem(StripMarker(line))
    else if line == "" then Nothing
    else Paragraph(line)
  }

  /** Blocks, and whether they are wrapped in a bulleted list. */
  datatype Formatted = Formatted(blocks: seq<Block>, asList: bool)

  function FormatContent(content: string): (f: Formatted)
    ensures f.asList <==> exists i :: 0 <= i < |f.blocks| && f.blocks[i].ListItem?
  {
    var lines := Split(content, '\n');
    var blocks := seq(|lines|, i requires 0 <= i < |lines| => Classify(lines[i]));
    Formatted(blocks, exists i :: 0 <= i < |blocks| && blocks[i].ListItem?)
  }

  /** Written as the coach writes them, "• text" lines become items holding just the text. */
  lemma BulletLineGivesItem(text: string)
    requires text == "" || !IsSpace(text[0])
    ensures Classify("• " + text) == ListItem(text)
  {
    var line := "• " + text;
    assert line[0] == '•';
    assert TrimStart(line) == line;
    TrimHead(line);
    assert StartsWithMarker(Trim(line));
    var rest := line[1..];
    assert rest == " " + text;
    assert rest[1..] == text;
    assert TrimStart(rest) == TrimStart(text) == text;
  }

  /**
   * An indented bullet is still an item, but its marker is not in the first
   * column, so the item keeps the whole line, indentation and marker included.
   */
  lemma IndentedBulletKeepsMarker(line: string)
    requires |line| > 0 && IsSpace(line[0]) && |TrimStart(line)| > 0 && IsMarker(TrimStart(line)[0])
    ensures Classify(line) == ListItem(line)
  {
    TrimHead(line);
  }

  /** An answer built from separate lines is formatted line by line, in order. */
  lemma FormatLines(lines: seq<string>)
    requires |lines| > 0 && forall i :: 0 <= i < |lines| ==> NoSeparator(lines[i], '\n')
    ensures |FormatContent(Join(lines, "\n")).blocks| == |lines|
    ensures forall i :: 0 <= i < |lines| ==> FormatContent(Join(lines, "\n")).blocks[i] == Classify(lines[i])
  {
    JoinSplitRoundTrip(lines, '\n');
  }
}
