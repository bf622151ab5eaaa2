/**
 * The message composer (src/components/layout/Composer.tsx): its input text,
 * its attachment list and its recording toggle, the send guard that turns the
 * input into a user message in the selected chat, and the per-mode
 * placeholder and quick-prompt tables. The simulated assistant reply that
 * follows a send is not modelled.
 */
module Composer {
  import opened Types
  import opened Js
  import opened ChatContext

  /** A browser `File` picked in the upload dialog. */
  datatype Attachment = Attachment(name: string, size: nat, mimeType: string)

  /** `!input.trim() || !currentChat` is the early return of `handleSend`. */
  predicate CanSend(input: string, current: Option<Chat>)
  {
    Trim(input) != [] && current.Some?
  }

  /** A send goes ahead exactly when the input holds a non-whitespace
      character and a chat is selected. */
  lemma CanSendIff(input: string, current: Option<Chat>)
    ensures CanSend(input, current) <==> !AllWhitespace(input) && current.Some?
  {
    TrimEmptyIff(input);
  }

  /** `disabled={!input.trim()}` */
  predicate SendDisabled(input: string)
  {
    Trim(input) == []
  }

  /** The button is disabled exactly for blank input; it stays enabled when
      no chat is selected, and then a click does nothing. */
  lemma SendDisabledIff(input: string, current: Option<Chat>)
    ensures SendDisabled(input) <==> AllWhitespace(input)
    ensures SendDisabled(input) ==> !CanSend(input, current)
    ensures !SendDisabled(input) && current.None? ==> !CanSend(input, current)
  {
    TrimEmptyIff(input);
  }

  /** The message `handleSend` builds from the input. */
  function UserMessage(id: string, input: string, now: Timestamp): Message
  {
    Message(id, UserRole, Trim(input), now, None, None, None)
  }

  /** `prev.filter((_, i) => i !== index)`: the element at `index` goes, the
      others keep their order, and an index outside the list changes nothing. */
  function RemoveAt<T>(xs: seq<T>, index: int): (r: seq<T>)
    ensures 0 <= index < |xs| ==> r == xs[..index] + xs[index + 1..]
    ensures !(0 <= index < |xs|) ==> r == xs
  {
    if xs == [] then []
    else
      var rest := RemoveAt(xs[1..], index - 1);
      assert xs == [xs[0]] + xs[1..];
      (if index == 0 then [] else [xs[0]]) + rest
  }

  /** `Enter` without `Shift` sends; `Shift+Enter` is a line break. */
  predicate SendsOnKey(key: string, shiftKey: bool)
  {
    key == "Enter" && !shiftKey
  }

  const GenericPlaceholder := "Type your message here..."

  /** `getPlaceholder` */
  function Placeholder(mode: ChatMode): (r: string)
    ensures r == GenericPlaceholder <==> mode == Custom
  {
    match mode
    case Aptitude => "Ask about aptitude questions, logical reasoning, or quantitative problems..."
    case Coding => "Ask about algorithms, data structures, or coding problems..."
    case Document => "Ask questions about your uploaded documents..."
    case Quiz => "Create or take a quiz, ask for practice questions..."
    case _ => GenericPlaceholder
  }

  const DefaultPrompts := ["Help me understand", "Explain in detail", "Give me examples"]

  /** `getQuickPrompts(mode: string)`: three prompts for every string, the
      default three for anything but the four named modes. */
  function QuickPrompts(mode: string): (r: seq<string>)
    ensures |r| == 3
    ensures mode !in {"aptitude", "coding", "document", "quiz"} ==> r == DefaultPrompts
    ensures mode in {"aptitude", "coding", "document", "quiz"} ==> r != DefaultPrompts
  {
    if mode == "aptitude" then
      ["Explain this math problem", "Help with logical reasoning", "Practice quantitative questions"]
    else if mode == "coding" then
      ["Explain this algorithm", "Optimize this code", "Debug this error"]
    else if mode == "document" then
      ["Summarize this document", "Extract key points", "Create quiz questions"]
    else if mode == "quiz" then
      ["Create a practice quiz", "Test my knowledge", "Review my answers"]
    else DefaultPrompts
  }

  /** Each mode gets its own prompts; `custom` gets the default ones. */
  lemma QuickPromptsPerMode(a: ChatMode, b: ChatMode)
    ensures QuickPrompts(ModeName(Custom)) == DefaultPrompts
    ensures a != b ==> QuickPrompts(ModeName(a)) != QuickPrompts(ModeName(b))
  {
  }

  /** The composer's own state, and the store it sends to. */
  class ComposerState {
    var input: string
    var attachments: seq<Attachment>
    var isRecording: bool
    const store: ChatProvider

    constructor (store: ChatProvider)
      ensures input == "" && attachments == [] && !isRecording
      ensures this.store == store
    {
      input := "";
      attachments := [];
      isRecording := false;
      this.store := store;
    }

    /** Typing, or clicking a quick prompt, replaces the input. */
    method SetInput(text: string)
      modifies this`input
      ensures input == text
    {
      input := text;
    }

    method ToggleRecording()
      modifies this`isRecording
      ensures isRecording == !old(isRecording)
    {
      isRecording := !isRecording;
    }

    /** `handleSend`: with blank input or no selected chat nothing changes;
        otherwise the trimmed input is appended as a user message to the
        selected chat, in the list and in the selected copy, and the input
        is cleared. The attachments stay as they are. */
    method Send(messageId: string, now: Timestamp)
      modifies this`input, store
      ensures !CanSend(old(input), old(store.currentChat)) ==>
        input == old(input) && unchanged(store)
      ensures CanSend(old(input), old(store.currentChat)) ==>
        var id := old(store.currentChat).value.id;
        var m := UserMessage(messageId, old(input), now);
        input == "" &&
        m.role == UserRole && m.content == Trim(old(input)) &&
        store.chats == EditChats(old(store.chats), id, AppendMessage(m, now)) &&
        store.currentChat == Some(old(store.currentChat).value.(messages := old(store.currentChat).value.messages + [m], updatedAt := now)) &&
        store.workspaces == old(store.workspaces) && store.currentWorkspace == old(store.currentWorkspace) &&
        store.mode == old(store.mode)
      ensures old(store.SelectionConsistent()) ==> store.SelectionConsistent()
    {
      if Trim(input) == [] || store.currentChat.None? {
        return;
      }
      var m := UserMessage(messageId, input, now);
      store.AddMessage(store.currentChat.value.id, m, now, now);
      input := "";
    }

    /** `handleKeyDown`: Enter sends as the send button does. */
    method KeyDown(key: string, shiftKey: bool, messageId: string, now: Timestamp)
      modifies this`input, store
      ensures !(SendsOnKey(key, shiftKey) && CanSend(old(input), old(store.currentChat))) ==>
        input == old(input) && unchanged(store)
      ensures SendsOnKey(key, shiftKey) && CanSend(old(input), old(store.currentChat)) ==>
        var id := old(store.currentChat).value.id;
        var m := UserMessage(messageId, old(input), now);
        input == "" &&
        store.chats == EditChats(old(store.chats), id, AppendMessage(m, now)) &&
        store.currentChat == Some(old(store.currentChat).value.(messages := old(store.currentChat).value.messages + [m], updatedAt := now)) &&
        store.workspaces == old(store.workspaces) && store.currentWorkspace == old(store.currentWorkspace) &&
        store.mode == old(store.mode)
      ensures old(store.SelectionConsistent()) ==> store.SelectionConsistent()
    {
      if SendsOnKey(key, shiftKey) {
        Send(messageId, now);
      }
    }

    /** `handleFileUpload`: the picked files go after the existing ones. */
    method HandleFileUpload(files: seq<Attachment>)
      modifies this`attachments
      ensures attachments == old(attachments) + files
      ensures attachments[..|old(attachments)|] == old(attachments)
    {
      attachments := attachments + files;
    }

    method RemoveAttachment(index: int)
      modifies this`attachments
      ensures attachments == RemoveAt(old(attachments), index)
    {
      attachments := RemoveAt(attachments, index);
    }
  }
}
