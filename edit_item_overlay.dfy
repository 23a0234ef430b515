/** The overlay a selected card shows: edit, delete or cancel.  A delete is
    sent straight away only for an item whose children list is known and
    empty; anything else asks for confirmation first and then deletes the
    whole group.  Calls into the item API, the card's `setSelected` and the
    page's `editItem` are recorded as effects; whether an awaited delete
    resolved is a parameter. */
module EditItemOverlay {
  import opened Js
  import opened ApiTypes
  import opened ApiContext

  /** `item.children?.length === 0`: the children are known and none. */
  predicate DeletesDirectly(item: Item) {
    item.children.Some? && |item.children.value| == 0
  }

  /** `item.parent?.id.toString() || undefined`: the container to refetch,
      absent (the root) when the item has no parent. */
  function RefetchTarget(item: Item): (id: Option<string>)
    ensures id.None? <==> item.parent.None?
    ensures id.Some? ==> id.value == IntToString(item.parent.value.id)
  {
    if item.parent.Some? then Some(IntToString(item.parent.value.id)) else None
  }

  /** The refetch after a delete lists the deleted item's container: its
      parent's children, or the root list. */
  lemma RefetchListsContainer(item: Item)
    ensures item.parent.None? ==> ItemsUrl(RefetchTarget(item)) == "items"
    ensures item.parent.Some? ==> ItemsUrl(RefetchTarget(item)) == "items/" + IntToString(item.parent.value.id)
  {
  }

  /** A direct delete goes to the single-item endpoint, a confirmed one to
      the cascading endpoint, and the two never coincide. */
  lemma DeleteRoutes(item: Item)
    ensures DeleteUrl(IntToString(item.id), false) == "items/" + IntToString(item.id)
    ensures DeleteUrl(IntToString(item.id), true) == "items/group/" + IntToString(item.id)
    ensures DeleteUrl(IntToString(item.id), false) != DeleteUrl(IntToString(item.id), true)
  {
    if DeleteUrl(IntToString(item.id), false) == DeleteUrl(IntToString(item.id), true) {
      DeleteUrlInjective(item.id, item.id, false, true);
    }
  }

  datatype Effect =
    | CallDelete(id: string, isGroup: bool)
    | Deselect
    | CallFetchItems(container: Option<string>)
    | CallEditItem(item: Item)
    | ShowConfirm

  /** The calls that follow a resolved delete: deselect, then refetch. */
  function AfterDelete(item: Item): seq<Effect> {
    [Deselect, CallFetchItems(RefetchTarget(item))]
  }

  class Overlay {
    const item: Item
    /** Whether the confirmation dialog is up, holding `accept`/`reject`. */
    var confirming: bool
    var effects: seq<Effect>

    constructor(item: Item)
      ensures this.item == item && !confirming && effects == []
    {
      this.item := item;
      confirming := false;
      effects := [];
    }

    /** `handleDelete`: a childless item is deleted at once (and, if that
        resolved, deselected and its container refetched); any other item
        only opens the confirmation. */
    method HandleDelete(deleted: bool)
      modifies this
      ensures DeletesDirectly(item) ==>
        confirming == old(confirming)
        && effects == old(effects) + [CallDelete(IntToString(item.id), false)] + (if deleted then AfterDelete(item) else [])
      ensures !DeletesDirectly(item) ==> confirming && effects == old(effects) + [ShowConfirm]
    {
      if item.children.Some? && |item.children.value| == 0 {
        effects := effects + [CallDelete(IntToString(item.id), false)];
        if deleted {
          effects := effects + [Deselect, CallFetchItems(RefetchTarget(item))];
        }
      } else {
        DeleteConfirm();
      }
    }

    /** `handleDeleteConfirm`. */
    method DeleteConfirm()
      modifies this
      ensures confirming && effects == old(effects) + [ShowConfirm]
    {
      confirming := true;
      effects := effects + [ShowConfirm];
    }

    /** The dialog's `accept`, `handleDeleteGroup`: a cascading delete,
        then (if it resolved) deselect and refetch. */
    method Accept(deleted: bool)
      requires confirming
      modifies this
      ensures !confirming
      ensures effects == old(effects) + [CallDelete(IntToString(item.id), true)] + (if deleted then AfterDelete(item) else [])
    {
      confirming := false;
      effects := effects + [CallDelete(IntToString(item.id), true)];
      if deleted {
        effects := effects + [Deselect, CallFetchItems(RefetchTarget(item))];
      }
    }

    /** The dialog's `reject`: nothing is called. */
    method Reject()
      requires confirming
      modifies this
      ensures !confirming && effects == old(effects)
    {
      confirming := false;
    }

    /** `handleEdit`: hand the item to the page, then deselect. */
    method HandleEdit()
      modifies this
      ensures effects == old(effects) + [CallEditItem(item), Deselect] && confirming == old(confirming)
    {
      effects := effects + [CallEditItem(item), Deselect];
    }

    /** The cancel button only deselects. */
    method Cancel()
      modifies this
      ensures effects == old(effects) + [Deselect] && confirming == old(confirming)
    {
      effects := effects + [Deselect];
    }
  }
}
