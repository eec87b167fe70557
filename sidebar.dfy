/** The sidebar's dialog state: the chat chosen for renaming with its draft
    name, the chat chosen for deletion, the open flags of both dialogs and
    the collapsed flag. Renaming and deleting only hand the chat's id to the
    page's callbacks. */
module Sidebar {
  import opened Wrappers
  import opened Text

  /** A chat as the sidebar lists it. */
  datatype ChatRef = ChatRef(id: nat, title: string)

  /** The rename callback's arguments: the chat's id and the new name, as typed. */
  datatype Rename = Rename(chatId: nat, name: string)

  /** What saving the rename dialog fires: the callback runs only with a chat
      selected and a name that is not blank, and then gets the name untrimmed. */
  function RenameEvent(selected: Option<ChatRef>, name: string): (e: Option<Rename>)
    ensures e.Some? <==> selected.Some? && !Blank(name)
    ensures e.Some? ==> e.value == Rename(selected.value.id, name)
  {
    TrimSpec(name);
    if selected.Some? && Trim(name) != [] then Some(Rename(selected.value.id, name)) else None
  }

  /** What confirming the delete dialog fires: the selected chat's id, if any. */
  function DeleteEvent(selected: Option<ChatRef>): (e: Option<nat>)
    ensures e.Some? <==> selected.Some?
    ensures e.Some? ==> e.value == selected.value.id
  {
    match selected
    case Some(chat) => Some(chat.id)
    case None => None
  }

  /** A name of spaces is refused even with a chat selected; a name with
      surrounding spaces is passed on with them. */
  lemma RenameExamples(chat: ChatRef)
    ensures RenameEvent(Some(chat), "   ") == None
    ensures RenameEvent(Some(chat), " Notas ") == Some(Rename(chat.id, " Notas "))
    ensures RenameEvent(None, "Notas") == None
  {
    assert Blank("   ");
    assert !IsSpace(" Notas "[1]);
    assert !Blank("Notas") by { assert !IsSpace("Notas"[0]); }
  }

  class Panel {
    var isCollapsed: bool
    var chatToRename: Option<ChatRef>
    var newChatName: string
    var isRenameDialogOpen: bool
    var isDeleteDialogOpen: bool
    var chatToDelete: Option<ChatRef>

    constructor ()
      ensures !isCollapsed && chatToRename == None && newChatName == ""
      ensures !isRenameDialogOpen && !isDeleteDialogOpen && chatToDelete == None
    {
      isCollapsed := false;
      chatToRename := None;
      newChatName := "";
      isRenameDialogOpen := false;
      isDeleteDialogOpen := false;
      chatToDelete := None;
    }

    /** Saving the rename dialog: when it fires, the dialog closes and the
        selection and the draft are cleared; otherwise nothing changes. */
    method HandleRename() returns (fired: Option<Rename>)
      modifies this
      ensures fired == RenameEvent(old(chatToRename), old(newChatName))
      ensures fired.Some? ==> !isRenameDialogOpen && chatToRename == None && newChatName == ""
      ensures fired.None? ==>
        isRenameDialogOpen == old(isRenameDialogOpen) && chatToRename == old(chatToRename) && newChatName == old(newChatName)
      ensures isCollapsed == old(isCollapsed) && isDeleteDialogOpen == old(isDeleteDialogOpen) && chatToDelete == old(chatToDelete)
    {
      TrimSpec(newChatName);
      fired := None;
      if chatToRename.Some? && Trim(newChatName) != [] {
        fired := Some(Rename(chatToRename.value.id, newChatName));
        isRenameDialogOpen := false;
        chatToRename := None;
        newChatName := "";
      }
    }

    /** Confirming the delete dialog: with a chat selected, its id is passed
        on, the dialog closes and the selection is cleared. */
    method HandleDelete() returns (fired: Option<nat>)
      modifies this
      ensures fired == DeleteEvent(old(chatToDelete))
      ensures fired.Some? ==> !isDeleteDialogOpen && chatToDelete == None
      ensures fired.None? ==> isDeleteDialogOpen == old(isDeleteDialogOpen) && chatToDelete == None
      ensures isCollapsed == old(isCollapsed) && chatToRename == old(chatToRename)
      ensures newChatName == old(newChatName) && isRenameDialogOpen == old(isRenameDialogOpen)
    {
      fired := None;
      if chatToDelete.Some? {
        fired := Some(chatToDelete.value.id);
        isDeleteDialogOpen := false;
        chatToDelete := None;
      }
    }

    /** The rename menu item: selects the chat, preloads its title and opens
        the dialog. */
    method OpenRenameDialog(chat: ChatRef)
      modifies this
      ensures chatToRename == Some(chat) && newChatName == chat.title && isRenameDialogOpen
      ensures isCollapsed == old(isCollapsed) && isDeleteDialogOpen == old(isDeleteDialogOpen) && chatToDelete == old(chatToDelete)
    {
      chatToRename := Some(chat);
      newChatName := chat.title;
      isRenameDialogOpen := true;
    }

    /** The delete menu item: selects the chat and opens the dialog. */
    method OpenDeleteDialog(chat: ChatRef)
      modifies this
      ensures chatToDelete == Some(chat) && isDeleteDialogOpen
      ensures isCollapsed == old(isCollapsed) && chatToRename == old(chatToRename)
      ensures newChatName == old(newChatName) && isRenameDialogOpen == old(isRenameDialogOpen)
    {
      chatToDelete := Some(chat);
      isDeleteDialogOpen := true;
    }

    /** Typing in the rename field. */
    method SetNewChatName(name: string)
      modifies this
      ensures newChatName == name
      ensures isCollapsed == old(isCollapsed) && chatToRename == old(chatToRename) && isRenameDialogOpen == old(isRenameDialogOpen)
      ensures isDeleteDialogOpen == old(isDeleteDialogOpen) && chatToDelete == old(chatToDelete)
    {
      newChatName := name;
    }

    /** The rename dialog's Cancel button, or the dialog closing itself: only
        the open flag changes; the selection and the draft are kept. */
    method SetRenameDialogOpen(open: bool)
      modifies this
      ensures isRenameDialogOpen == open
      ensures isCollapsed == old(isCollapsed) && chatToRename == old(chatToRename) && newChatName == old(newChatName)
      ensures isDeleteDialogOpen == old(isDeleteDialogOpen) && chatToDelete == old(chatToDelete)
    {
      isRenameDialogOpen := open;
    }

    /** The delete dialog's Cancel button, or the dialog closing itself: only
        the open flag changes; the selection is kept. */
    method SetDeleteDialogOpen(open: bool)
      modifies this
      ensures isDeleteDialogOpen == open
      ensures isCollapsed == old(isCollapsed) && chatToRename == old(chatToRename) && newChatName == old(newChatName)
      ensures isRenameDialogOpen == old(isRenameDialogOpen) && chatToDelete == old(chatToDelete)
    {
      isDeleteDialogOpen := open;
    }

    /** The collapse button flips the collapsed flag and nothing else. */
    method ToggleCollapse()
      modifies this
      ensures isCollapsed == !old(isCollapsed)
      ensures chatToRename == old(chatToRename) && newChatName == old(newChatName) && isRenameDialogOpen == old(isRenameDialogOpen)
      ensures isDeleteDialogOpen == old(isDeleteDialogOpen) && chatToDelete == old(chatToDelete)
    {
      isCollapsed := !isCollapsed;
    }
  }

  /** Pressing the collapse button twice restores the panel. */
  method CollapseTwice(p: Panel)
    modifies p
    ensures p.isCollapsed == old(p.isCollapsed)
    ensures p.chatToRename == old(p.chatToRename) && p.newChatName == old(p.newChatName)
    ensures p.isRenameDialogOpen == old(p.isRenameDialogOpen)
    ensures p.isDeleteDialogOpen == old(p.isDeleteDialogOpen) && p.chatToDelete == old(p.chatToDelete)
  {
    p.ToggleCollapse();
    p.ToggleCollapse();
  }

  /** Opening the rename dialog and saving at once renames the chat to its
      current title, provided the title is not blank. */
  method RenameUnchangedTitle(chat: ChatRef) returns (fired: Option<Rename>)
    ensures fired.Some? <==> !Blank(chat.title)
    ensures fired.Some? ==> fired.value == Rename(chat.id, chat.title)
  {
    var p := new Panel();
    p.OpenRenameDialog(chat);
    fired := p.HandleRename();
  }
}
