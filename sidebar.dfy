/**
 * The sidebar (src/components/layout/Sidebar.tsx): the per-mode labels, the
 * new-chat sequence, the recent-chats list and its highlighted entry.
 * Icons, colours and the profile block are not modelled.
 */
module Sidebar {
  import opened Types
  import opened Js
  import opened ChatContext

  /** `modeConfigs[mode].label`: the table has an entry for every mode. */
  function ModeLabel(m: ChatMode): (r: string)
    ensures |r| > 0
  {
    match m
    case Aptitude => "Aptitude"
    case Coding => "Coding"
    case Document => "Document"
    case Quiz => "Quiz"
    case Custom => "Custom"
  }

  /** The dropdown lists the modes in the table's order. */
  function DropdownLabels(): (r: seq<string>)
    ensures |r| == |AllModes()|
    ensures forall k :: 0 <= k < |r| ==> r[k] == ModeLabel(AllModes()[k])
  {
    var modes := AllModes();
    seq(|modes|, k requires 0 <= k < |modes| => ModeLabel(modes[k]))
  }

  /** The title of a new chat in a mode. */
  function NewChatTitle(m: ChatMode): string
  {
    "New " + ModeLabel(m) + " Chat"
  }

  /** New-chat titles tell the modes apart. */
  lemma NewChatTitleDistinct(a: ChatMode, b: ChatMode)
    ensures StartsWith(NewChatTitle(a), "New ") && EndsWith(NewChatTitle(a), " Chat")
    ensures NewChatTitle(a) == NewChatTitle(b) ==> a == b
  {
    var ta, tb := NewChatTitle(a), NewChatTitle(b);
    assert ta[..4] == "New ";
    assert ta[|ta| - 5..] == " Chat";
    if ta == tb {
      assert ta[4..|ta| - 5] == ModeLabel(a);
      assert tb[4..|tb| - 5] == ModeLabel(b);
    }
  }

  /** The chat `handleNewChat` builds: no messages yet. The two
      timestamps are two separate clock readings. */
  function NewChat(m: ChatMode, id: string, createdNow: Timestamp, updatedNow: Timestamp): (c: Chat)
    ensures c.messages == [] && c.mode == m && c.id == id
    ensures c.title == NewChatTitle(m)
    ensures c.createdAt == createdNow && c.updatedAt == updatedNow
  {
    Chat(id, NewChatTitle(m), m, createdNow, updatedNow, [])
  }

  /** `chats.slice(0, 10)`: the first `min(10, |chats|)` chats. */
  function RecentChats(chats: seq<Chat>): (r: seq<Chat>)
    ensures |r| == if |chats| < 10 then |chats| else 10
    ensures r == chats[..|r|]
  {
    SlicePrefix(chats, 10);
    Slice(chats, 0, 10)
  }

  /** `currentChat?.id === chat.id` */
  predicate IsActive(current: Option<Chat>, chat: Chat)
  {
    current.Some? && current.value.id == chat.id
  }

  /** With unique ids at most one recent chat is highlighted. */
  lemma AtMostOneActive(chats: seq<Chat>, current: Option<Chat>, i: nat, j: nat)
    requires UniqueIds(chats)
    requires i < |RecentChats(chats)| && j < |RecentChats(chats)|
    requires IsActive(current, RecentChats(chats)[i]) && IsActive(current, RecentChats(chats)[j])
    ensures i == j
  {
    var r := RecentChats(chats);
    assert r[i] == chats[i] && r[j] == chats[j];
  }

  /** The sidebar's own state and the store it drives. */
  class SidebarState {
    var showModeDropdown: bool
    const store: ChatProvider

    constructor (store: ChatProvider)
      ensures !showModeDropdown && this.store == store
    {
      showModeDropdown := false;
      this.store := store;
    }

    method ToggleModeDropdown()
      modifies this`showModeDropdown
      ensures showModeDropdown == !old(showModeDropdown)
    {
      showModeDropdown := !showModeDropdown;
    }

    /** `handleNewChat`: the new chat heads the list, is selected and is
        highlighted, the mode follows it, and the dropdown closes. */
    method HandleNewChat(selectedMode: ChatMode, id: string, createdNow: Timestamp, updatedNow: Timestamp)
      modifies this`showModeDropdown, store
      ensures var c := NewChat(selectedMode, id, createdNow, updatedNow);
        store.chats == [c] + old(store.chats) &&
        store.currentChat == Some(c) &&
        store.currentWorkspace == PrependToWorkspace(old(store.currentWorkspace), c) &&
        RecentChats(store.chats)[0] == c && IsActive(store.currentChat, c)
      ensures store.mode == selectedMode
      ensures store.workspaces == old(store.workspaces)
      ensures store.SelectionConsistent()
      ensures !showModeDropdown
    {
      var c := NewChat(selectedMode, id, createdNow, updatedNow);
      store.AddChat(c);
      store.SetCurrentChat(Some(c));
      store.SetMode(selectedMode);
      showModeDropdown := false;
    }

    /** Clicking a recent chat selects it. */
    method SelectChat(chat: Chat)
      requires chat in RecentChats(store.chats)
      modifies store`currentChat
      ensures store.currentChat == Some(chat) && IsActive(store.currentChat, chat)
      ensures store.SelectionConsistent()
    {
      store.SetCurrentChat(Some(chat));
    }
  }
}
