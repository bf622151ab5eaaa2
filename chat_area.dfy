/**
 * What the message list shows (src/components/layout/ChatArea.tsx), as
 * values: the welcome screen or the selected chat's header and bubbles,
 * each bubble's body, action bar, sources and code blocks, and the
 * line-by-line markdown-like rendering of a message's text.
 * Styling, icons and scrolling are not modelled.
 */
module ChatArea {
  import opened Types
  import opened Js

  // ---------------------------------------------------------------------
  // MessageContent

  /** What one line of a message becomes. */
  datatype Block =
    | CodeBlockLabel          // the "Code block" placeholder
    | Bold(text: string)
    | Italic(text: string)
    | Paragraph(text: string)

  /** The tests of `MessageContent`, in the source's order. */
  function ClassifyLine(line: string): Block
  {
    if StartsWith(line, "```") then CodeBlockLabel
    else if StartsWith(line, "**") && EndsWith(line, "**") then Bold(Slice(line, 2, -2))
    else if StartsWith(line, "*") && EndsWith(line, "*") then Italic(Slice(line, 1, -1))
    else Paragraph(line)
  }

  /** `content.split('\n').map(...)`: one block per line, in line order. */
  function MessageContent(content: string): (r: seq<Block>)
    ensures |r| == Count(content, '\n') + 1
    ensures forall k :: 0 <= k < |r| ==> r[k] == ClassifyLine(Split(content, '\n')[k])
  {
    var lines := Split(content, '\n');
    seq(|lines|, k requires 0 <= k < |lines| => ClassifyLine(lines[k]))
  }

  /** A code fence wins over every other rule, whatever follows it. */
  lemma CodeFenceFirst(line: string, rest: string)
    ensures ClassifyLine("```" + rest) == CodeBlockLabel
  {
    assert ("```" + rest)[..3] == "```";
  }

  /** Which rule applies, as conditions on the line alone: bold exactly for
      a non-fence line framed by `**`, italic exactly for a line framed by
      `*` but not by `**`, and a paragraph otherwise. */
  lemma ClassifyLineCases(line: string)
    ensures ClassifyLine(line) == CodeBlockLabel <==> StartsWith(line, "```")
    ensures ClassifyLine(line).Bold? <==>
      !StartsWith(line, "```") && StartsWith(line, "**") && EndsWith(line, "**")
    ensures ClassifyLine(line).Italic? <==>
      !StartsWith(line, "```") && !(StartsWith(line, "**") && EndsWith(line, "**")) &&
      StartsWith(line, "*") && EndsWith(line, "*")
    ensures ClassifyLine(line).Paragraph? ==> ClassifyLine(line) == Paragraph(line)
  {
  }

  /** The shown text is the line without its markers: `**`+text+`**` and
      `*`+text+`*` give the line back when it is long enough to hold both
      markers, and shorter framed lines (`*`, `**`, `***`) show nothing. */
  lemma ClassifyLineText(line: string)
    ensures ClassifyLine(line).Bold? ==>
      if |line| >= 4 then "**" + ClassifyLine(line).text + "**" == line
      else ClassifyLine(line).text == ""
    ensures ClassifyLine(line).Italic? ==>
      if |line| >= 2 then "*" + ClassifyLine(line).text + "*" == line
      else ClassifyLine(line).text == ""
  {
    var b := ClassifyLine(line);
    if b.Bold? {
      SliceDropsEnds(line, 2);
      if |line| >= 4 {
        assert line == line[..2] + line[2..|line| - 2] + line[|line| - 2..];
      }
    } else if b.Italic? {
      SliceDropsEnds(line, 1);
      if |line| >= 2 {
        assert line == line[..1] + line[1..|line| - 1] + line[|line| - 1..];
      }
    }
  }

  /** Lines joined by `'\n'` are rendered one block each, in order. */
  lemma MessageContentOfLines(lines: seq<string>)
    requires |lines| >= 1
    requires forall k :: 0 <= k < |lines| ==> '\n' !in lines[k]
    ensures |MessageContent(Join(lines, '\n'))| == |lines|
    ensures forall k :: 0 <= k < |lines| ==> MessageContent(Join(lines, '\n'))[k] == ClassifyLine(lines[k])
  {
    SplitJoin(lines, '\n');
  }

  // ---------------------------------------------------------------------
  // CodeBlock

  /** What a code block shows: its language and code, a run button when it
      is runnable, and its output when the output is a non-empty string. */
  datatype CodeBlockView = CodeBlockView(language: string, code: string, runButton: bool, output: Option<string>)

  function ViewCodeBlock(b: CodeBlock): (v: CodeBlockView)
    ensures v.runButton <==> b.isRunnable == Some(true)
    ensures v.output.Some? <==> b.output.Some? && b.output.value != ""
    ensures v.output.Some? ==> v.output == b.output
  {
    CodeBlockView(b.language, b.code, b.isRunnable == Some(true),
                  if b.output.Some? && b.output.value != "" then b.output else None)
  }

  /** A code block's `error` and `id` never reach the screen. */
  lemma CodeBlockErrorNotShown(b: CodeBlock, error: Option<string>, id: string)
    ensures ViewCodeBlock(b.(error := error, id := id)) == ViewCodeBlock(b)
  {
  }

  // ---------------------------------------------------------------------
  // MessageBubble

  datatype BubbleBody = Thinking | Content(blocks: seq<Block>)

  datatype BubbleView = BubbleView(
    fromUser: bool,
    body: BubbleBody,
    actions: bool,
    sourceTitles: Option<seq<string>>,
    codeBlocks: seq<CodeBlockView>)

  predicate IsStreaming(m: Message)
  {
    m.isStreaming == Some(true)
  }

  function SourceTitles(sources: seq<Source>): (r: seq<string>)
    ensures |r| == |sources|
    ensures forall k :: 0 <= k < |r| ==> r[k] == sources[k].title
  {
    seq(|sources|, k requires 0 <= k < |sources| => sources[k].title)
  }

  /** `MessageBubble`: the thinking indicator replaces the text of a
      streaming assistant message; the action bar is for settled assistant
      messages; the sources list appears only when there are sources. */
  function ViewMessage(m: Message): (v: BubbleView)
    ensures v.fromUser <==> m.role == UserRole
    ensures v.body == Thinking <==> IsStreaming(m) && m.role != UserRole
    ensures v.body.Content? ==> v.body.blocks == MessageContent(m.content)
    ensures v.actions <==> m.role != UserRole && !IsStreaming(m)
    ensures v.sourceTitles.Some? <==> m.sources.Some? && |m.sources.value| > 0
    ensures v.sourceTitles.Some? ==> v.sourceTitles.value == SourceTitles(m.sources.value)
    ensures |v.codeBlocks| == if m.codeBlocks.Some? then |m.codeBlocks.value| else 0
    ensures m.codeBlocks.Some? ==>
      forall k :: 0 <= k < |v.codeBlocks| ==> v.codeBlocks[k] == ViewCodeBlock(m.codeBlocks.value[k])
  {
    var isUser := m.role == UserRole;
    var blocks := if m.codeBlocks.Some? then m.codeBlocks.value else [];
    BubbleView(
      isUser,
      if IsStreaming(m) && !isUser then Thinking else Content(MessageContent(m.content)),
      !isUser && !IsStreaming(m),
      if m.sources.Some? && |m.sources.value| > 0 then Some(SourceTitles(m.sources.value)) else None,
      seq(|blocks|, k requires 0 <= k < |blocks| => ViewCodeBlock(blocks[k])))
  }

  /** An assistant bubble shows either the thinking indicator or the action
      bar, never both and never neither; a user bubble always shows its text
      and never the action bar. */
  lemma ThinkingOrActions(m: Message)
    ensures m.role == AssistantRole ==> (ViewMessage(m).body == Thinking <==> !ViewMessage(m).actions)
    ensures m.role == UserRole ==> ViewMessage(m).body.Content? && !ViewMessage(m).actions
  {
  }

  // ---------------------------------------------------------------------
  // ChatArea

  datatype ChatAreaView =
    | Welcome
    | Conversation(title: string, modeBadge: string, bubbles: seq<BubbleView>)

  /** The welcome screen when no chat is selected, otherwise the selected
      chat's title, mode and one bubble per message in order. */
  function ViewChatArea(current: Option<Chat>): (v: ChatAreaView)
    ensures v.Welcome? <==> current.None?
    ensures v.Conversation? ==>
      v.title == current.value.title && v.modeBadge == ModeName(current.value.mode) &&
      |v.bubbles| == |current.value.messages| &&
      forall k :: 0 <= k < |v.bubbles| ==> v.bubbles[k] == ViewMessage(current.value.messages[k])
  {
    if current.None? then Welcome
    else
      var ms := current.value.messages;
      Conversation(current.value.title, ModeName(current.value.mode),
                   seq(|ms|, k requires 0 <= k < |ms| => ViewMessage(ms[k])))
  }
}
