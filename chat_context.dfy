/**
 * The chat store (src/contexts/ChatContext.tsx): the ordered chat list
 * (newest first), the selected copy of one chat, the workspaces, the
 * selected workspace and the active mode.
 *
 * Each keyed operation rewrites the list with a pure `map`/`filter` and, when
 * the selected chat has the same id, applies the same edit to the selected
 * copy. The edits themselves are values of `ChatEdit`, so one lemma states
 * for all of them that the list entry and the selected copy stay equal.
 * Each store operation is one atomic step; `new Date()` is a parameter.
 */
module ChatContext {
  import opened Types

  // ---------------------------------------------------------------------
  // Partial updates: `{ ...value, ...updates }`

  /** `Partial<Chat>`: a present field replaces the chat's, an absent one keeps it. */
  datatype ChatPatch = ChatPatch(
    id: Option<string>,
    title: Option<string>,
    mode: Option<ChatMode>,
    createdAt: Option<Timestamp>,
    updatedAt: Option<Timestamp>,
    messages: Option<seq<Message>>)

  /** `Partial<Message>`. For the optional properties the outer `Option` says
      whether the key is present and the inner one carries the value, which
      may be `undefined` (`None`). */
  datatype MessagePatch = MessagePatch(
    id: Option<string>,
    role: Option<Role>,
    content: Option<string>,
    timestamp: Option<Timestamp>,
    sources: Option<Option<seq<Source>>>,
    codeBlocks: Option<Option<seq<CodeBlock>>>,
    isStreaming: Option<Option<bool>>)

  const NoChatChanges := ChatPatch(None, None, None, None, None, None)

  /** The value a spread leaves in one property. */
  function Spread<T>(current: T, update: Option<T>): T
  {
    if update.Some? then update.value else current
  }

  /** `{ ...chat, ...updates }` */
  function MergeChat(c: Chat, u: ChatPatch): Chat
  {
    Chat(Spread(c.id, u.id), Spread(c.title, u.title), Spread(c.mode, u.mode),
         Spread(c.createdAt, u.createdAt), Spread(c.updatedAt, u.updatedAt),
         Spread(c.messages, u.messages))
  }

  /** `{ ...msg, ...updates }` */
  function MergeMessage(m: Message, u: MessagePatch): Message
  {
    Message(Spread(m.id, u.id), Spread(m.role, u.role), Spread(m.content, u.content),
            Spread(m.timestamp, u.timestamp), Spread(m.sources, u.sources),
            Spread(m.codeBlocks, u.codeBlocks), Spread(m.isStreaming, u.isStreaming))
  }

  /** `{ ...u, ...v }`: the later patch wins where both set a field. */
  function ThenChat(u: ChatPatch, v: ChatPatch): ChatPatch
  {
    ChatPatch(if v.id.Some? then v.id else u.id,
              if v.title.Some? then v.title else u.title,
              if v.mode.Some? then v.mode else u.mode,
              if v.createdAt.Some? then v.createdAt else u.createdAt,
              if v.updatedAt.Some? then v.updatedAt else u.updatedAt,
              if v.messages.Some? then v.messages else u.messages)
  }

  /** Merging is idempotent, the empty patch changes nothing, and two
      merges in a row are one merge of the combined patch. */
  lemma MergeChatLaws(c: Chat, u: ChatPatch, v: ChatPatch)
    ensures MergeChat(MergeChat(c, u), u) == MergeChat(c, u)
    ensures MergeChat(c, NoChatChanges) == c
    ensures MergeChat(MergeChat(c, u), v) == MergeChat(c, ThenChat(u, v))
  {
  }

  /** A merge changes exactly the properties the patch names. */
  lemma MergeMessageFields(m: Message, u: MessagePatch)
    ensures var r := MergeMessage(m, u);
      (u.id.None? ==> r.id == m.id) && (u.id.Some? ==> r.id == u.id.value) &&
      (u.role.None? ==> r.role == m.role) && (u.role.Some? ==> r.role == u.role.value) &&
      (u.content.None? ==> r.content == m.content) && (u.content.Some? ==> r.content == u.content.value) &&
      (u.timestamp.None? ==> r.timestamp == m.timestamp) &&
      (u.timestamp.Some? ==> r.timestamp == u.timestamp.value) &&
      (u.sources.None? ==> r.sources == m.sources) &&
      (u.sources.Some? ==> r.sources == u.sources.value) &&
      (u.codeBlocks.None? ==> r.codeBlocks == m.codeBlocks) &&
      (u.codeBlocks.Some? ==> r.codeBlocks == u.codeBlocks.value) &&
      (u.isStreaming.None? ==> r.isStreaming == m.isStreaming) &&
      (u.isStreaming.Some? ==> r.isStreaming == u.isStreaming.value)
  {
  }

  // ---------------------------------------------------------------------
  // The edits `updateChat`, `addMessage` and `updateMessage` apply to a chat

  datatype ChatEdit =
    | MergeFields(updates: ChatPatch)                      // updateChat
    | AppendMessage(message: Message, now: Timestamp)       // addMessage
    | EditMessage(messageId: string, patch: MessagePatch)   // updateMessage

  /** `messages.map(msg => msg.id === messageId ? { ...msg, ...updates } : msg)` */
  function EditMessages(messages: seq<Message>, messageId: string, u: MessagePatch): (r: seq<Message>)
    ensures |r| == |messages|
    ensures forall k :: 0 <= k < |messages| && messages[k].id == messageId ==> r[k] == MergeMessage(messages[k], u)
    ensures forall k :: 0 <= k < |messages| && messages[k].id != messageId ==> r[k] == messages[k]
  {
    if messages == [] then []
    else
      var head := if messages[0].id == messageId then MergeMessage(messages[0], u) else messages[0];
      [head] + EditMessages(messages[1..], messageId, u)
  }

  function ApplyEdit(c: Chat, e: ChatEdit): Chat
  {
    match e
    case MergeFields(u) => MergeChat(c, u)
    case AppendMessage(m, now) => c.(messages := c.messages + [m], updatedAt := now)
    case EditMessage(mid, u) => c.(messages := EditMessages(c.messages, mid, u))
  }

  /** An edit that cannot change the chat's id: only a merge whose patch
      sets another id can. */
  predicate KeepsId(id: string, e: ChatEdit)
  {
    e.MergeFields? ==> e.updates.id.None? || e.updates.id.value == id
  }

  /** `chats.map(chat => chat.id === chatId ? edit(chat) : chat)`: every chat
      with the id is edited, every other one is kept, and the length and the
      order of the list do not change. */
  function EditChats(chats: seq<Chat>, chatId: string, e: ChatEdit): (r: seq<Chat>)
    ensures |r| == |chats|
    ensures forall k :: 0 <= k < |chats| && chats[k].id == chatId ==> r[k] == ApplyEdit(chats[k], e)
    ensures forall k :: 0 <= k < |chats| && chats[k].id != chatId ==> r[k] == chats[k]
  {
    if chats == [] then []
    else
      var head := if chats[0].id == chatId then ApplyEdit(chats[0], e) else chats[0];
      [head] + EditChats(chats[1..], chatId, e)
  }

  /** The mirror onto the selected copy: edited only when its id matches. */
  function EditSelected(current: Option<Chat>, chatId: string, e: ChatEdit): (r: Option<Chat>)
    ensures r.Some? <==> current.Some?
    ensures r != current ==> current.Some? && current.value.id == chatId
  {
    if current.Some? && current.value.id == chatId then Some(ApplyEdit(current.value, e))
    else current
  }

  /** `chats.filter(chat => chat.id !== chatId)`: no chat with the id is
      left, and the list does not grow. */
  function RemoveChats(chats: seq<Chat>, chatId: string): (r: seq<Chat>)
    ensures |r| <= |chats|
    ensures forall k :: 0 <= k < |r| ==> r[k].id != chatId
  {
    if chats == [] then []
    else
      var rest := RemoveChats(chats[1..], chatId);
      if chats[0].id == chatId then rest else [chats[0]] + rest
  }

  /** Exactly the chats with another id remain. */
  lemma {:induction false} RemoveChatsMembers(chats: seq<Chat>, chatId: string)
    ensures forall c :: c in RemoveChats(chats, chatId) <==> c in chats && c.id != chatId
  {
    if chats != [] {
      RemoveChatsMembers(chats[1..], chatId);
      assert chats == [chats[0]] + chats[1..];
    }
  }

  /** `deleteChat` clears the selection exactly when the deleted id was selected. */
  function DeselectDeleted(current: Option<Chat>, chatId: string): (r: Option<Chat>)
    ensures r.None? <==> current.None? || current.value.id == chatId
    ensures r.Some? ==> r == current
  {
    if current.Some? && current.value.id == chatId then None else current
  }

  /** `addChat` puts the new chat at the front of the selected workspace's chats. */
  function PrependToWorkspace(w: Option<Workspace>, chat: Chat): (r: Option<Workspace>)
    ensures r.Some? <==> w.Some?
    ensures r.Some? ==> r.value.chats == [chat] + w.value.chats && r.value == w.value.(chats := r.value.chats)
  {
    if w.Some? then Some(w.value.(chats := [chat] + w.value.chats)) else None
  }

  // ---------------------------------------------------------------------
  // Properties of the list transforms

  /** Editing an id that no chat has leaves the list as it was. */
  lemma EditMissingIdIsNoOp(chats: seq<Chat>, chatId: string, e: ChatEdit)
    requires forall k :: 0 <= k < |chats| ==> chats[k].id != chatId
    ensures EditChats(chats, chatId, e) == chats
  {
  }

  /** Deleting an id that no chat has leaves the list as it was. */
  lemma {:induction false} RemoveMissingIdIsNoOp(chats: seq<Chat>, chatId: string)
    requires forall k :: 0 <= k < |chats| ==> chats[k].id != chatId
    ensures RemoveChats(chats, chatId) == chats
  {
    if chats != [] {
      RemoveMissingIdIsNoOp(chats[1..], chatId);
      assert chats == [chats[0]] + chats[1..];
    }
  }

  /** One step of the filter. */
  lemma RemoveChatsCons(c: Chat, rest: seq<Chat>, chatId: string)
    ensures RemoveChats([c] + rest, chatId) == (if c.id == chatId then [] else [c]) + RemoveChats(rest, chatId)
  {
    assert ([c] + rest)[0] == c && ([c] + rest)[1..] == rest;
  }

  /** The filter keeps relative order: it works on each part of a list
      separately. */
  lemma {:induction false} RemoveChatsKeepsOrder(a: seq<Chat>, b: seq<Chat>, chatId: string)
    ensures RemoveChats(a + b, chatId) == RemoveChats(a, chatId) + RemoveChats(b, chatId)
  {
    if a == [] {
      assert a + b == b;
    } else {
      var head := if a[0].id == chatId then [] else [a[0]];
      RemoveChatsKeepsOrder(a[1..], b, chatId);
      assert a + b == [a[0]] + (a[1..] + b);
      RemoveChatsCons(a[0], a[1..] + b, chatId);
      assert a == [a[0]] + a[1..];
      RemoveChatsCons(a[0], a[1..], chatId);
      assert head + (RemoveChats(a[1..], chatId) + RemoveChats(b, chatId))
          == (head + RemoveChats(a[1..], chatId)) + RemoveChats(b, chatId);
    }
  }

  /** The number of chats `deleteChat` removes is the number with that id. */
  function CountId(chats: seq<Chat>, chatId: string): nat
  {
    if chats == [] then 0 else (if chats[0].id == chatId then 1 else 0) + CountId(chats[1..], chatId)
  }

  lemma {:induction false} RemoveChatsLength(chats: seq<Chat>, chatId: string)
    ensures |RemoveChats(chats, chatId)| == |chats| - CountId(chats, chatId)
  {
    if chats != [] {
      RemoveChatsLength(chats[1..], chatId);
    }
  }

  /** An edit touches the messages only of the chats with the id: the
      appended message lands last, and the count grows by exactly one. */
  lemma AppendMessageAt(chats: seq<Chat>, chatId: string, m: Message, now: Timestamp, k: nat)
    requires k < |chats|
    ensures var c := EditChats(chats, chatId, AppendMessage(m, now))[k];
      if chats[k].id == chatId then
        c.messages == chats[k].messages + [m] && |c.messages| == |chats[k].messages| + 1 &&
        c.updatedAt == now && c == chats[k].(messages := c.messages, updatedAt := now)
      else c == chats[k]
  {
  }

  /** `updateMessage` keeps the number and order of messages in every chat. */
  lemma EditMessageAt(chats: seq<Chat>, chatId: string, messageId: string, u: MessagePatch, k: nat)
    requires k < |chats|
    ensures var c := EditChats(chats, chatId, EditMessage(messageId, u))[k];
      |c.messages| == |chats[k].messages| &&
      c == chats[k].(messages := c.messages) &&
      forall j :: 0 <= j < |c.messages| ==>
        c.messages[j] == if chats[k].id == chatId && chats[k].messages[j].id == messageId
                         then MergeMessage(chats[k].messages[j], u) else chats[k].messages[j]
  {
  }

  /** A run of `addMessage` calls on one chat, in call order; each call
      reads the clock anew, so `nows[i]` is the reading of the i-th call. */
  function AppendAll(chats: seq<Chat>, chatId: string, ms: seq<Message>, nows: seq<Timestamp>): seq<Chat>
    requires |nows| == |ms|
    decreases |ms|
  {
    if ms == [] then chats
    else AppendAll(EditChats(chats, chatId, AppendMessage(ms[0], nows[0])), chatId, ms[1..], nows[1..])
  }

  /** Appends are applied in call order: the chat ends with exactly the
      messages appended, in that order, stamped with the last call's clock
      reading, and no other chat changes. */
  lemma {:induction false} AppendAllInOrder(chats: seq<Chat>, chatId: string, ms: seq<Message>, nows: seq<Timestamp>, k: nat)
    requires |nows| == |ms|
    requires k < |chats|
    ensures |AppendAll(chats, chatId, ms, nows)| == |chats|
    ensures chats[k].id == chatId ==>
      AppendAll(chats, chatId, ms, nows)[k].messages == chats[k].messages + ms
    ensures chats[k].id == chatId && ms != [] ==>
      AppendAll(chats, chatId, ms, nows)[k].updatedAt == nows[|nows| - 1]
    ensures chats[k].id == chatId && ms != [] ==>
      AppendAll(chats, chatId, ms, nows)[k] ==
        chats[k].(messages := chats[k].messages + ms, updatedAt := nows[|nows| - 1])
    ensures chats[k].id != chatId ==> AppendAll(chats, chatId, ms, nows)[k] == chats[k]
    decreases |ms|
  {
    if ms != [] {
      var next := EditChats(chats, chatId, AppendMessage(ms[0], nows[0]));
      AppendAllInOrder(next, chatId, ms[1..], nows[1..], k);
      assert chats[k].messages + [ms[0]] + ms[1..] == chats[k].messages + ms;
      if |ms| > 1 {
        assert nows[1..][|nows[1..]| - 1] == nows[|nows| - 1];
      }
    } else {
      assert chats[k].messages + ms == chats[k].messages;
    }
  }

  // ---------------------------------------------------------------------
  // The selected copy and the list

  /** The selected chat, when there is one, is one of the list's entries. */
  predicate Consistent(chats: seq<Chat>, current: Option<Chat>)
  {
    current.Some? ==> current.value in chats
  }

  predicate UniqueIds(chats: seq<Chat>)
  {
    forall i, j :: 0 <= i < j < |chats| ==> chats[i].id != chats[j].id
  }

  /** With unique ids, the selected copy equals the list entry with its id. */
  lemma SelectedIsTheEntry(chats: seq<Chat>, current: Option<Chat>, k: nat)
    requires UniqueIds(chats) && Consistent(chats, current)
    requires current.Some? && k < |chats| && chats[k].id == current.value.id
    ensures chats[k] == current.value
  {
  }

  /** Applying the same edit to the list and to its mirror keeps the
      selected copy equal to its list entry (`updateChat`, `addMessage`
      with one clock reading, `updateMessage`). */
  lemma EditKeepsConsistent(chats: seq<Chat>, current: Option<Chat>, chatId: string, e: ChatEdit)
    requires Consistent(chats, current)
    ensures Consistent(EditChats(chats, chatId, e), EditSelected(current, chatId, e))
  {
    if current.Some? {
      var k :| 0 <= k < |chats| && chats[k] == current.value;
      assert EditChats(chats, chatId, e)[k] == EditSelected(current, chatId, e).value;
    }
  }

  /** `deleteChat` keeps the selection consistent. */
  lemma RemoveKeepsConsistent(chats: seq<Chat>, current: Option<Chat>, chatId: string)
    requires Consistent(chats, current)
    ensures Consistent(RemoveChats(chats, chatId), DeselectDeleted(current, chatId))
  {
    RemoveChatsMembers(chats, chatId);
  }

  /** `addChat` keeps the selection consistent. */
  lemma PrependKeepsConsistent(chats: seq<Chat>, current: Option<Chat>, chat: Chat)
    requires Consistent(chats, current)
    ensures Consistent([chat] + chats, current)
  {
  }

  /** `addMessage` reads the clock once for the list and once for the
      selected copy: when the readings differ, the two copies of the
      selected chat differ in `updatedAt`. */
  lemma AddMessageClockSkew(chats: seq<Chat>, current: Option<Chat>, m: Message, listNow: Timestamp, selectedNow: Timestamp)
    requires Consistent(chats, current) && current.Some?
    requires listNow != selectedNow
    ensures !Consistent(EditChats(chats, current.value.id, AppendMessage(m, listNow)),
                        EditSelected(current, current.value.id, AppendMessage(m, selectedNow)))
  {
    var id := current.value.id;
    var after := EditChats(chats, id, AppendMessage(m, listNow));
    var selected := EditSelected(current, id, AppendMessage(m, selectedNow)).value;
    forall k | 0 <= k < |after| ensures after[k] != selected {
      if chats[k].id == id {
        assert after[k].updatedAt == listNow;
      } else {
        assert after[k].id != selected.id;
      }
    }
  }

  /** Edits that keep ids keep them unique. */
  lemma EditKeepsUniqueIds(chats: seq<Chat>, chatId: string, e: ChatEdit)
    requires UniqueIds(chats) && KeepsId(chatId, e)
    ensures UniqueIds(EditChats(chats, chatId, e))
  {
    var r := EditChats(chats, chatId, e);
    assert forall k :: 0 <= k < |chats| ==> r[k].id == chats[k].id;
  }

  /** Deleting keeps ids unique. */
  lemma {:induction false} RemoveKeepsUniqueIds(chats: seq<Chat>, chatId: string)
    requires UniqueIds(chats)
    ensures UniqueIds(RemoveChats(chats, chatId))
  {
    if chats != [] {
      RemoveKeepsUniqueIds(chats[1..], chatId);
      var rest := RemoveChats(chats[1..], chatId);
      RemoveChatsMembers(chats[1..], chatId);
      forall k | 0 <= k < |rest| ensures rest[k].id != chats[0].id {
        assert rest[k] in chats[1..];
      }
    }
  }

  /** `addChat` with an id not yet present keeps ids unique; the store
      itself does not check this, callers generate fresh ids. */
  lemma PrependKeepsUniqueIds(chats: seq<Chat>, chat: Chat)
    requires UniqueIds(chats)
    requires forall k :: 0 <= k < |chats| ==> chats[k].id != chat.id
    ensures UniqueIds([chat] + chats)
  {
  }

  // ---------------------------------------------------------------------
  // The store

  function DefaultWorkspace(now: Timestamp): Workspace
  {
    Workspace("default", "Default Workspace", Some("Your main workspace"), [], [], now)
  }

  /** `ChatProvider`'s state and its operations. */
  class ChatProvider {
    var chats: seq<Chat>
    var currentChat: Option<Chat>
    var workspaces: seq<Workspace>
    var currentWorkspace: Option<Workspace>
    var mode: ChatMode

    /** The selected copy is one of the list's entries. */
    ghost predicate SelectionConsistent()
      reads this
    {
      Consistent(chats, currentChat)
    }

    /** The initial state: no chats, nothing selected, the default
        workspace alone and selected, aptitude mode. */
    constructor (now: Timestamp)
      ensures chats == [] && currentChat == None
      ensures workspaces == [DefaultWorkspace(now)]
      ensures currentWorkspace == Some(workspaces[0])
      ensures mode == Aptitude
      ensures SelectionConsistent()
    {
      chats := [];
      currentChat := None;
      workspaces := [DefaultWorkspace(now)];
      currentWorkspace := Some(DefaultWorkspace(now));
      mode := Aptitude;
    }

    method SetCurrentChat(chat: Option<Chat>)
      modifies this`currentChat
      ensures currentChat == chat
    {
      currentChat := chat;
    }

    method SetCurrentWorkspace(workspace: Option<Workspace>)
      modifies this`currentWorkspace
      ensures currentWorkspace == workspace
    {
      currentWorkspace := workspace;
    }

    method SetMode(m: ChatMode)
      modifies this`mode
      ensures mode == m
    {
      mode := m;
    }

    /** Prepends the chat to the list and to the selected workspace's copy;
        the `workspaces` list itself is never written. */
    method AddChat(chat: Chat)
      modifies this`chats, this`currentWorkspace
      ensures chats == [chat] + old(chats)
      ensures currentWorkspace == PrependToWorkspace(old(currentWorkspace), chat)
      ensures old(SelectionConsistent()) ==> SelectionConsistent()
    {
      if Consistent(chats, currentChat) {
        PrependKeepsConsistent(chats, currentChat, chat);
      }
      chats := [chat] + chats;
      if currentWorkspace.Some? {
        currentWorkspace := PrependToWorkspace(currentWorkspace, chat);
      }
    }

    method UpdateChat(chatId: string, updates: ChatPatch)
      modifies this`chats, this`currentChat
      ensures chats == EditChats(old(chats), chatId, MergeFields(updates))
      ensures currentChat == EditSelected(old(currentChat), chatId, MergeFields(updates))
      ensures old(SelectionConsistent()) ==> SelectionConsistent()
    {
      if Consistent(chats, currentChat) {
        EditKeepsConsistent(chats, currentChat, chatId, MergeFields(updates));
      }
      chats := EditChats(chats, chatId, MergeFields(updates));
      if currentChat.Some? && currentChat.value.id == chatId {
        currentChat := Some(MergeChat(currentChat.value, updates));
      }
    }

    method DeleteChat(chatId: string)
      modifies this`chats, this`currentChat
      ensures chats == RemoveChats(old(chats), chatId)
      ensures currentChat == DeselectDeleted(old(currentChat), chatId)
      ensures old(SelectionConsistent()) ==> SelectionConsistent()
    {
      if Consistent(chats, currentChat) {
        RemoveKeepsConsistent(chats, currentChat, chatId);
      }
      chats := RemoveChats(chats, chatId);
      if currentChat.Some? && currentChat.value.id == chatId {
        currentChat := None;
      }
    }

    /** `listNow` and `selectedNow` are the two `new Date()` readings of
        the source, for the list entry and for the selected copy. */
    method AddMessage(chatId: string, message: Message, listNow: Timestamp, selectedNow: Timestamp)
      modifies this`chats, this`currentChat
      ensures chats == EditChats(old(chats), chatId, AppendMessage(message, listNow))
      ensures currentChat == EditSelected(old(currentChat), chatId, AppendMessage(message, selectedNow))
      ensures old(SelectionConsistent()) && listNow == selectedNow ==> SelectionConsistent()
    {
      if Consistent(chats, currentChat) {
        EditKeepsConsistent(chats, currentChat, chatId, AppendMessage(message, listNow));
      }
      chats := EditChats(chats, chatId, AppendMessage(message, listNow));
      if currentChat.Some? && currentChat.value.id == chatId {
        var c := currentChat.value;
        currentChat := Some(c.(messages := c.messages + [message], updatedAt := selectedNow));
      }
    }

    method UpdateMessage(chatId: string, messageId: string, updates: MessagePatch)
      modifies this`chats, this`currentChat
      ensures chats == EditChats(old(chats), chatId, EditMessage(messageId, updates))
      ensures currentChat == EditSelected(old(currentChat), chatId, EditMessage(messageId, updates))
      ensures old(SelectionConsistent()) ==> SelectionConsistent()
    {
      if Consistent(chats, currentChat) {
        EditKeepsConsistent(chats, currentChat, chatId, EditMessage(messageId, updates));
      }
      chats := EditChats(chats, chatId, EditMessage(messageId, updates));
      if currentChat.Some? && currentChat.value.id == chatId {
        var c := currentChat.value;
        currentChat := Some(c.(messages := EditMessages(c.messages, messageId, updates)));
      }
    }
  }
}

/** Two client scenarios of the store, verified from its contracts alone. */
module StoreScenarios {
  import opened Types
  import opened ChatContext

  /** Start empty, add and select "c1", append "m1": the selected chat
      holds exactly that message. */
  method AddThenMessage(now: Timestamp)
  {
    var store := new ChatProvider(now);
    var c1 := Chat("c1", "New Coding Chat", Coding, now, now, []);
    store.AddChat(c1);
    store.SetCurrentChat(Some(c1));
    var m1 := Message("m1", UserRole, "hi", now, None, None, None);
    store.AddMessage("c1", m1, now, now);
    assert store.currentChat.value.messages == [m1];
    assert store.chats[0] == store.currentChat.value;
  }

  /** With "c1" selected, deleting "c2" leaves "c1" alone and selected. */
  method DeleteOther(now: Timestamp)
  {
    var store := new ChatProvider(now);
    var c1 := Chat("c1", "a", Quiz, now, now, []);
    var c2 := Chat("c2", "b", Quiz, now, now, []);
    store.AddChat(c1);
    store.AddChat(c2);
    store.SetCurrentChat(Some(c1));
    store.DeleteChat("c2");
    assert [c2, c1] == [c2] + [c1];
    RemoveChatsKeepsOrder([c2], [c1], "c2");
    assert store.chats == [c1];
    assert store.currentChat == Some(c1);
  }
}
