/** The home page: the add/edit dialog's visibility, mode and item, and the
    root listing fetched once the session is logged in.  The fetches it
    asks for are recorded by their `fetchItems` argument. */
module HomePage {
  import opened Js
  import opened ApiTypes
  import AddItemModal

  class Home {
    var dialogVisible: bool
    var dialogMode: AddItemModal.Mode
    var editingItem: Option<Item>
    /** The argument of every `fetchItems` call, in order. */
    var fetches: seq<Option<string>>

    /** The dialog edits an item exactly when it is in edit mode, so an
        update always has an item to send. */
    predicate Valid()
      reads this
    {
      dialogMode == AddItemModal.EditMode <==> editingItem.Some?
    }

    constructor()
      ensures Valid()
      ensures !dialogVisible && dialogMode == AddItemModal.CreateMode && editingItem.None? && fetches == []
    {
      dialogVisible := false;
      dialogMode := AddItemModal.CreateMode;
      editingItem := None;
      fetches := [];
    }

    /** `openAddItemModal`: a blank create dialog. */
    method OpenAddItemModal()
      modifies this
      ensures Valid()
      ensures dialogVisible && dialogMode == AddItemModal.CreateMode && editingItem.None?
      ensures fetches == old(fetches)
    {
      dialogMode := AddItemModal.CreateMode;
      editingItem := None;
      dialogVisible := true;
    }

    /** `setEditingItem`: the dialog edits `item`. */
    method SetEditingItem(item: Item)
      modifies this
      ensures Valid()
      ensures dialogVisible && dialogMode == AddItemModal.EditMode && editingItem == Some(item)
      ensures fetches == old(fetches)
    {
      dialogMode := AddItemModal.EditMode;
      editingItem := Some(item);
      dialogVisible := true;
    }

    /** `closeAddItemModal`: only hides the dialog. */
    method CloseAddItemModal()
      requires Valid()
      modifies this
      ensures Valid()
      ensures !dialogVisible && dialogMode == old(dialogMode) && editingItem == old(editingItem)
      ensures fetches == old(fetches)
    {
      dialogVisible := false;
    }

    /** The `[fetchItems, isLogged]` effect: the root list is fetched only
        while logged in. */
    method LoggedEffect(isLogged: bool)
      modifies this
      ensures fetches == old(fetches) + (if isLogged then [None] else [])
      ensures dialogVisible == old(dialogVisible) && dialogMode == old(dialogMode) && editingItem == old(editingItem)
    {
      if !isLogged {
        return;
      }
      fetches := fetches + [None];
    }
  }
}
