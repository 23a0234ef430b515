/** The API-key manager page: a list of API entries, a create dialog with
    name and description fields, and a delete confirmation for a selected
    row.  The list updates are pure: append the created entry, or keep the
    entries whose id differs from the selected one.  Requests are recorded
    as effects; whether an awaited create resolved, and with what, is a
    parameter. */
module ApiManager {
  import opened Js

  /** One row: `Api` as the page declares it, with the returned token. */
  datatype ApiEntry = ApiEntry(id: int, name: string, description: string, token: string)

  /** `[...prev, res]`. */
  function Appended(list: seq<ApiEntry>, entry: ApiEntry): (r: seq<ApiEntry>)
    ensures |r| == |list| + 1 && r[..|list|] == list && r[|list|] == entry
  {
    list + [entry]
  }

  /** `prev.filter((api) => api.id !== selectedApi?.id)`; with no selection
      every entry is kept. */
  function WithoutId(list: seq<ApiEntry>, id: Option<int>): (r: seq<ApiEntry>)
    ensures |r| <= |list|
    ensures forall e :: e in r <==> e in list && Some(e.id) != id
  {
    if list == [] then []
    else if Some(list[0].id) == id then WithoutId(list[1..], id)
    else [list[0]] + WithoutId(list[1..], id)
  }

  /** Filtering keeps the order: it distributes over concatenation. */
  lemma {:induction false} WithoutIdDistributes(a: seq<ApiEntry>, b: seq<ApiEntry>, id: Option<int>)
    ensures WithoutId(a + b, id) == WithoutId(a, id) + WithoutId(b, id)
    decreases |a|
  {
    if a == [] {
      assert a + b == b;
    } else {
      assert (a + b)[1..] == a[1..] + b;
      WithoutIdDistributes(a[1..], b, id);
    }
  }

  /** Deleting the same id twice is deleting it once. */
  lemma {:induction false} WithoutIdIdempotent(list: seq<ApiEntry>, id: Option<int>)
    ensures WithoutId(WithoutId(list, id), id) == WithoutId(list, id)
    decreases |list|
  {
    if list != [] {
      WithoutIdIdempotent(list[1..], id);
      if Some(list[0].id) != id {
        assert ([list[0]] + WithoutId(list[1..], id))[1..] == WithoutId(list[1..], id);
      }
    }
  }

  /** A list with no entry of that id (in particular, no selection at all)
      is left as it is. */
  lemma {:induction false} WithoutAbsentId(list: seq<ApiEntry>, id: Option<int>)
    requires forall i :: 0 <= i < |list| ==> Some(list[i].id) != id
    ensures WithoutId(list, id) == list
    decreases |list|
  {
    if list != [] {
      WithoutAbsentId(list[1..], id);
      assert [list[0]] + list[1..] == list;
    }
  }

  /** Deleting right after creating removes the new entry and every older
      entry with its id, and keeps the others in order. */
  lemma CreatedThenDeleted(list: seq<ApiEntry>, entry: ApiEntry)
    ensures WithoutId(Appended(list, entry), Some(entry.id)) == WithoutId(list, Some(entry.id))
  {
    WithoutIdDistributes(list, [entry], Some(entry.id));
    assert WithoutId([entry], Some(entry.id)) == [];
  }

  /** `apis/${selectedApi?.id}`: "undefined" without a selection. */
  function DeletePath(selected: Option<ApiEntry>): (p: string)
    ensures selected.None? ==> p == "apis/undefined"
    ensures selected.Some? ==> p == "apis/" + IntToString(selected.value.id)
  {
    "apis/" + if selected.Some? then IntToString(selected.value.id) else "undefined"
  }

  datatype Effect =
    | PostApi(name: string, description: string)
    | DeleteApi(path: string)
    | CopyToken(token: string)
    | ListApis

  class Manager {
    var createDialog: bool
    var createName: string
    var createDescription: string
    var deleteDialog: bool
    var apis: seq<ApiEntry>
    var selected: Option<ApiEntry>
    var effects: seq<Effect>

    constructor()
      ensures !createDialog && createName == "" && createDescription == "" && !deleteDialog
      ensures apis == [] && selected.None? && effects == []
    {
      createDialog := false;
      createName := "";
      createDescription := "";
      deleteDialog := false;
      apis := [];
      selected := None;
      effects := [];
    }

    /** The mount effect: list the entries; a resolved listing replaces the
        list. */
    method LoadEffect(listed: Option<seq<ApiEntry>>)
      modifies this
      ensures effects == old(effects) + [ListApis]
      ensures apis == if listed.Some? then listed.value else old(apis)
      ensures createDialog == old(createDialog) && createName == old(createName)
      ensures createDescription == old(createDescription) && deleteDialog == old(deleteDialog) && selected == old(selected)
    {
      effects := effects + [ListApis];
      if listed.Some? {
        apis := listed.value;
      }
    }

    /** `hanldeCreateApi`: post the form; once the request resolves with
        `created`, clear the form, close the dialog, append the entry and
        copy its token.  A rejected request throws first, so nothing else
        changes. */
    method HandleCreateApi(created: Option<ApiEntry>)
      modifies this
      ensures created.Some? ==>
        && createName == "" && createDescription == "" && !createDialog
        && apis == Appended(old(apis), created.value)
        && effects == old(effects) + [PostApi(old(createName), old(createDescription)), CopyToken(created.value.token)]
      ensures created.None? ==>
        && createName == old(createName) && createDescription == old(createDescription)
        && createDialog == old(createDialog) && apis == old(apis)
        && effects == old(effects) + [PostApi(old(createName), old(createDescription))]
      ensures deleteDialog == old(deleteDialog) && selected == old(selected)
    {
      effects := effects + [PostApi(createName, createDescription)];
      if created.None? {
        return;
      }
      createName := "";
      createDescription := "";
      createDialog := false;
      apis := apis + [created.value];
      effects := effects + [CopyToken(created.value.token)];
    }

    /** `confirmDeleteApi`: select the row and open the dialog. */
    method ConfirmDeleteApi(row: ApiEntry)
      modifies this
      ensures selected == Some(row) && deleteDialog
      ensures apis == old(apis) && effects == old(effects)
      ensures createDialog == old(createDialog) && createName == old(createName) && createDescription == old(createDescription)
    {
      selected := Some(row);
      deleteDialog := true;
    }

    /** `deleteApi`: send the delete and, without waiting for it, close the
        dialog and drop every entry with the selected id. */
    method DeleteSelected()
      modifies this
      ensures effects == old(effects) + [DeleteApi(DeletePath(old(selected)))]
      ensures !deleteDialog
      ensures apis == WithoutId(old(apis), if old(selected).Some? then Some(old(selected).value.id) else None)
      ensures selected == old(selected)
      ensures createDialog == old(createDialog) && createName == old(createName) && createDescription == old(createDescription)
    {
      effects := effects + [DeleteApi(DeletePath(selected))];
      deleteDialog := false;
      apis := WithoutId(apis, if selected.Some? then Some(selected.value.id) else None);
    }

    /** `hideDeleteApiDialog`: close the dialog, nothing else. */
    method HideDeleteApiDialog()
      modifies this
      ensures !deleteDialog
      ensures apis == old(apis) && effects == old(effects) && selected == old(selected)
      ensures createDialog == old(createDialog) && createName == old(createName) && createDescription == old(createDescription)
    {
      deleteDialog := false;
    }
  }
}
