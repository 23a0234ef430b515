/** The item API context: the `items` list with its loading flag, and the
    operations that list, create, update, delete and look up items.  Each
    shapes one request for the request helper; create and update build a
    multipart form by conditional appends. */
module ApiContext {
  import opened Js
  import opened ApiTypes
  import opened Browser
  import opened Http

  /** `items` for the root (id absent or empty), else `items/{id}`. */
  function ItemsUrl(id: Option<string>): (url: string)
    ensures TruthyOpt(id) ==> url == "items/" + id.value
    ensures !TruthyOpt(id) ==> url == "items"
  {
    "items" + (if TruthyOpt(id) then "/" + id.value else "")
  }

  /** `items/group/{id}` (cascading) when `isGroup`, else `items/{id}`. */
  function DeleteUrl(id: string, isGroup: bool): string {
    if isGroup then "items/group/" + id else "items/" + id
  }

  /** `items/parent/{id}`, used by both `fetchParent` and `fetchItem`. */
  function ParentUrl(id: string): string {
    "items/parent/" + id
  }

  /** For numeric ids, a plain delete and a cascading delete never reach
      the same endpoint, and distinct ids reach distinct endpoints. */
  lemma DeleteUrlInjective(a: int, b: int, groupA: bool, groupB: bool)
    requires DeleteUrl(IntToString(a), groupA) == DeleteUrl(IntToString(b), groupB)
    ensures a == b && groupA == groupB
  {
    var sa, sb := IntToString(a), IntToString(b);
    var u := DeleteUrl(sa, groupA);
    assert u[6] == (if groupA then 'g' else sa[0]);
    assert u[6] == (if groupB then 'g' else sb[0]);
    assert groupA == groupB;
    var prefix := if groupA then "items/group/" else "items/";
    assert u == prefix + sa && u == prefix + sb;
    assert sa == u[|prefix|..] == sb;
    IntToStringInjective(a, b);
  }

  /** Listing a container and looking up an ancestry never collide for
      numeric ids. */
  lemma ItemsAndParentUrlsDisjoint(a: int, b: int)
    ensures ItemsUrl(Some(IntToString(a))) != ParentUrl(IntToString(b))
  {
    var u := ItemsUrl(Some(IntToString(a)));
    assert u[6] == IntToString(a)[0];
    assert ParentUrl(IntToString(b))[6] == 'p';
  }

  /** `formData.get(name)`: the first value appended under `name`. */
  function Lookup(form: seq<FormEntry>, name: FormField): Option<FormValue> {
    if form == [] then None
    else if form[0].0 == name then Some(form[0].1)
    else Lookup(form[1..], name)
  }

  /** `get` on a form grown by appends searches the older entries first. */
  lemma {:induction false} LookupAppend(front: seq<FormEntry>, back: seq<FormEntry>, name: FormField)
    ensures Lookup(front + back, name) == if Lookup(front, name).Some? then Lookup(front, name) else Lookup(back, name)
  {
    if front == [] {
      assert front + back == back;
    } else {
      assert (front + back)[1..] == front[1..] + back;
      LookupAppend(front[1..], back, name);
    }
  }

  /** The create and update forms both append these fields, in this order. */
  const FieldCount := 6

  function FieldAt(k: nat): FormField
    requires k < FieldCount
  {
    if k == 0 then NameField
    else if k == 1 then TypeField
    else if k == 2 then ParentField
    else if k == 3 then TextField
    else if k == 4 then LogoField
    else FileField
  }

  /** The position of a field in the append order. */
  function FieldIndex(name: FormField): (k: nat)
    ensures k < FieldCount && FieldAt(k) == name
  {
    match name
    case NameField => 0
    case TypeField => 1
    case ParentField => 2
    case TextField => 3
    case LogoField => 4
    case FileField => 5
  }

  /** What each field would be appended with; `None` where its guard fails. */
  datatype Sent = Sent(
    name: Option<FormValue>,
    itemType: Option<FormValue>,
    parent: Option<FormValue>,
    text: Option<FormValue>,
    logo: Option<FormValue>,
    file: Option<FormValue>)

  function SentValue(s: Sent, name: FormField): Option<FormValue> {
    match name
    case NameField => s.name
    case TypeField => s.itemType
    case ParentField => s.parent
    case TextField => s.text
    case LogoField => s.logo
    case FileField => s.file
  }

  /** The form after the first `k` conditional appends. */
  function Entries(k: nat, s: Sent): seq<FormEntry>
    requires k <= FieldCount
  {
    if k == 0 then []
    else
      var v := SentValue(s, FieldAt(k - 1));
      Entries(k - 1, s) + (if v.Some? then [(FieldAt(k - 1), v.value)] else [])
  }

  /** The fields `createItem` appends: name and type always; parent, text,
      logo and file only when truthy, so an empty text is left out. */
  function CreateSent(item: CreateItem): Sent {
    Sent(
      Some(FormString(item.name)),
      Some(FormString(TypeName(item.itemType))),
      if ParentTruthy(item.parent) then Some(FormStringified(item.parent.value)) else None,
      if TruthyOpt(item.text) then Some(FormString(item.text.value)) else None,
      if item.logo.Some? then Some(FormFile(item.logo.value)) else None,
      if item.file.Some? then Some(FormFile(item.file.value)) else None)
  }

  /** The fields `updateItem` appends: each only when truthy. */
  function UpdateSent(item: UpdateItem): Sent {
    Sent(
      if TruthyOpt(item.name) then Some(FormString(item.name.value)) else None,
      if item.itemType.Some? then Some(FormString(TypeName(item.itemType.value))) else None,
      if ParentTruthy(item.parent) then Some(FormStringified(item.parent.value)) else None,
      if TruthyOpt(item.text) then Some(FormString(item.text.value)) else None,
      if item.logo.Some? then Some(FormFile(item.logo.value)) else None,
      if item.file.Some? then Some(FormFile(item.file.value)) else None)
  }

  /** The `FormData` both operations build: one guarded append per field. */
  method BuildForm(s: Sent) returns (form: seq<FormEntry>)
    ensures form == Entries(FieldCount, s)
  {
    form := [];
    if s.name.Some? {
      form := form + [(NameField, s.name.value)];
    }
    assert form == Entries(1, s);
    if s.itemType.Some? {
      form := form + [(TypeField, s.itemType.value)];
    }
    assert form == Entries(2, s);
    if s.parent.Some? {
      form := form + [(ParentField, s.parent.value)];
    }
    assert form == Entries(3, s);
    if s.text.Some? {
      form := form + [(TextField, s.text.value)];
    }
    assert form == Entries(4, s);
    if s.logo.Some? {
      form := form + [(LogoField, s.logo.value)];
    }
    assert form == Entries(5, s);
    if s.file.Some? {
      form := form + [(FileField, s.file.value)];
    }
  }

  /** Reading the form back gives each appended field's value, and nothing
      for a field whose guard failed or that is not yet appended. */
  lemma {:induction false} EntriesLookup(k: nat, s: Sent, name: FormField)
    requires k <= FieldCount
    ensures Lookup(Entries(k, s), name) == if FieldIndex(name) < k then SentValue(s, name) else None
  {
    if k > 0 {
      var v := SentValue(s, FieldAt(k - 1));
      var back := if v.Some? then [(FieldAt(k - 1), v.value)] else [];
      EntriesLookup(k - 1, s, name);
      LookupAppend(Entries(k - 1, s), back, name);
      if back != [] {
        assert back[1..] == [];
      }
    }
  }

  /** Entries appear in field order, so no field is appended twice. */
  lemma {:induction false} EntriesOrdered(k: nat, s: Sent)
    requires k <= FieldCount
    ensures forall i :: 0 <= i < |Entries(k, s)| ==> FieldIndex(Entries(k, s)[i].0) < k
    ensures forall i, j :: 0 <= i < j < |Entries(k, s)| ==>
      FieldIndex(Entries(k, s)[i].0) < FieldIndex(Entries(k, s)[j].0)
  {
    if k > 0 {
      EntriesOrdered(k - 1, s);
    }
  }

  /** The form is empty exactly when every guard fails. */
  lemma {:induction false} EntriesEmpty(k: nat, s: Sent)
    requires k <= FieldCount
    ensures Entries(k, s) == [] <==> forall j :: 0 <= j < k ==> SentValue(s, FieldAt(j)).None?
  {
    if k > 0 {
      EntriesEmpty(k - 1, s);
    }
  }

  /** A create form always carries the name and the type tag, carries a
      parent exactly when it is truthy, a text exactly when it is
      non-empty, and a logo or file exactly when one was chosen. */
  lemma CreateFormContents(item: CreateItem)
    ensures var form := Entries(FieldCount, CreateSent(item));
      && Lookup(form, NameField) == Some(FormString(item.name))
      && Lookup(form, TypeField) == Some(FormString(TypeName(item.itemType)))
      && Lookup(form, ParentField) == (if ParentTruthy(item.parent) then Some(FormStringified(item.parent.value)) else None)
      && Lookup(form, TextField) == (if TruthyOpt(item.text) then Some(FormString(item.text.value)) else None)
      && Lookup(form, LogoField) == (if item.logo.Some? then Some(FormFile(item.logo.value)) else None)
      && Lookup(form, FileField) == (if item.file.Some? then Some(FormFile(item.file.value)) else None)
  {
    var s := CreateSent(item);
    EntriesLookup(FieldCount, s, NameField);
    EntriesLookup(FieldCount, s, TypeField);
    EntriesLookup(FieldCount, s, ParentField);
    EntriesLookup(FieldCount, s, TextField);
    EntriesLookup(FieldCount, s, LogoField);
    EntriesLookup(FieldCount, s, FileField);
  }

  /** An update form carries each field exactly when it is truthy, with its
      value; with every field undefined or falsy it is empty. */
  lemma UpdateFormContents(item: UpdateItem)
    ensures var form := Entries(FieldCount, UpdateSent(item));
      && Lookup(form, NameField) == (if TruthyOpt(item.name) then Some(FormString(item.name.value)) else None)
      && Lookup(form, TypeField) == (if item.itemType.Some? then Some(FormString(TypeName(item.itemType.value))) else None)
      && Lookup(form, ParentField) == (if ParentTruthy(item.parent) then Some(FormStringified(item.parent.value)) else None)
      && Lookup(form, TextField) == (if TruthyOpt(item.text) then Some(FormString(item.text.value)) else None)
      && Lookup(form, LogoField) == (if item.logo.Some? then Some(FormFile(item.logo.value)) else None)
      && Lookup(form, FileField) == (if item.file.Some? then Some(FormFile(item.file.value)) else None)
    ensures Entries(FieldCount, UpdateSent(item)) == [] <==>
      !TruthyOpt(item.name) && item.itemType.None? && !ParentTruthy(item.parent) && !TruthyOpt(item.text) &&
      item.logo.None? && item.file.None?
  {
    var s := UpdateSent(item);
    EntriesLookup(FieldCount, s, NameField);
    EntriesLookup(FieldCount, s, TypeField);
    EntriesLookup(FieldCount, s, ParentField);
    EntriesLookup(FieldCount, s, TextField);
    EntriesLookup(FieldCount, s, LogoField);
    EntriesLookup(FieldCount, s, FileField);
    EntriesEmpty(FieldCount, s);
    assert forall j :: 0 <= j < FieldCount ==> FieldAt(j) == FieldAt(FieldIndex(FieldAt(j)));
  }

  /** What a field of the provided context value is bound to. */
  datatype Member =
    | ItemsState | ItemsLoadingState | FetchItemsOp | LoadFileOp
    | CreateItemOp | UpdateItemOp | FetchParentOp | DeleteItemOp

  /** The provider's context value, field by field. */
  const ProvidedValue: map<string, Member> := map[
    "items" := ItemsState,
    "fetchItems" := FetchItemsOp,
    "itemsLoading" := ItemsLoadingState,
    "loadFile" := LoadFileOp,
    "createItem" := CreateItemOp,
    "updateItem" := UpdateItemOp,
    "fetchParent" := FetchParentOp,
    "fetchItem" := FetchParentOp,
    "deleteItem" := DeleteItemOp
  ]

  /** `fetchItem` is `fetchParent` itself, and no `refreshToken` is
      provided (the edit form's link rotation reads an undefined member). */
  lemma FetchItemIsFetchParent()
    ensures "fetchItem" in ProvidedValue && "fetchParent" in ProvidedValue
    ensures ProvidedValue["fetchItem"] == ProvidedValue["fetchParent"] == FetchParentOp
    ensures "refreshToken" !in ProvidedValue
  {
  }

  class ApiProvider {
    /** The `items` state: the decoded body of the last successful listing. */
    var items: Json
    var itemsLoading: bool
    /** Every value `setItemsLoading` was called with, in order. */
    ghost var loadingTrace: seq<bool>
    const api: ApiClient

    constructor(api: ApiClient)
      ensures this.api == api && items == JArr([]) && !itemsLoading && loadingTrace == []
    {
      this.api := api;
      items := JArr([]);
      itemsLoading := false;
      loadingTrace := [];
    }

    /** `fetchItems(id)`: loading on, one GET, `items` replaced only on
        success, loading off on both paths; a failure yields `[]`. */
    method FetchItems(id: Option<string>, response: Response) returns (data: Json)
      modifies this, api.window
      ensures !itemsLoading && loadingTrace == old(loadingTrace) + [true, false]
      ensures SentOne(api.window,
        Request("/api/" + ItemsUrl(id), None, ComposeHeaders(map[], old(api.window.storedToken), false), NoBody))
      ensures ExpiryHandled(api.window, api.updateToken, response)
      ensures Classify(response, AsJson).Returned? ==>
        data == Classify(response, AsJson).value.json && items == data
      ensures Classify(response, AsJson).Threw? ==> data == JArr([]) && items == old(items)
    {
      itemsLoading := true;
      loadingTrace := loadingTrace + [true];
      data := JArr([]);
      var options := new RequestOptions(None, map[], NoBody);
      var outcome := api.Fetch(ItemsUrl(id), options, false, response, AsJson);
      if outcome.Returned? {
        data := outcome.value.json;
        items := data;
      }
      itemsLoading := false;
      loadingTrace := loadingTrace + [false];
    }

    /** `createItem(item)`: one multipart POST to `items`, without a
        Content-Type header; resolves iff the request does. */
    method Create(item: CreateItem, response: Response) returns (ok: bool)
      modifies api.window
      ensures ok <==> Classify(response, AsJson).Returned?
      ensures |api.window.sent| == |old(api.window.sent)| + 1
      ensures api.window.sent[..|old(api.window.sent)|] == old(api.window.sent)
      ensures var r := api.window.sent[|api.window.sent| - 1];
        && r.path == "/api/items" && r.verb == Some("POST")
        && r.headers == map["Authorization" := AuthorizationValue(old(api.window.storedToken))]
        && r.body == Form(Entries(FieldCount, CreateSent(item)))
      ensures ExpiryHandled(api.window, api.updateToken, response)
    {
      var form := BuildForm(CreateSent(item));
      var options := new RequestOptions(Some("POST"), map[], Form(form));
      var outcome := api.Fetch("items", options, true, response, AsJson);
      ok := outcome.Returned?;
    }

    /** `updateItem(id, item)`: one multipart PUT to `items/{id}`, without a
        Content-Type header; resolves iff the request does. */
    method Update(id: string, item: UpdateItem, response: Response) returns (ok: bool)
      modifies api.window
      ensures ok <==> Classify(response, AsJson).Returned?
      ensures |api.window.sent| == |old(api.window.sent)| + 1
      ensures api.window.sent[..|old(api.window.sent)|] == old(api.window.sent)
      ensures var r := api.window.sent[|api.window.sent| - 1];
        && r.path == "/api/items/" + id && r.verb == Some("PUT")
        && r.headers == map["Authorization" := AuthorizationValue(old(api.window.storedToken))]
        && r.body == Form(Entries(FieldCount, UpdateSent(item)))
      ensures ExpiryHandled(api.window, api.updateToken, response)
    {
      var form := BuildForm(UpdateSent(item));
      var options := new RequestOptions(Some("PUT"), map[], Form(form));
      var outcome := api.Fetch("items/" + id, options, true, response, AsJson);
      ok := outcome.Returned?;
    }

    /** `deleteItem(id, isGroup)`: one DELETE, to the cascading endpoint iff
        `isGroup`; resolves iff the request does. */
    method Delete(id: string, isGroup: bool, response: Response) returns (ok: bool)
      modifies api.window
      ensures ok <==> Classify(response, AsJson).Returned?
      ensures SentOne(api.window, Request("/api/" + DeleteUrl(id, isGroup), Some("DELETE"),
        ComposeHeaders(map[], old(api.window.storedToken), false), NoBody))
      ensures ExpiryHandled(api.window, api.updateToken, response)
    {
      var url := if isGroup then "items/group/" + id else "items/" + id;
      var options := new RequestOptions(Some("DELETE"), map[], NoBody);
      var outcome := api.Fetch(url, options, false, response, AsJson);
      ok := outcome.Returned?;
    }

    /** `fetchParent(id)`, which the context also provides as `fetchItem`:
        one GET of the ancestry record; a failure propagates. */
    method FetchParent(id: string, response: Response) returns (outcome: Outcome)
      modifies api.window
      ensures outcome == Classify(response, AsJson)
      ensures SentOne(api.window,
        Request("/api/" + ParentUrl(id), None, ComposeHeaders(map[], old(api.window.storedToken), false), NoBody))
      ensures ExpiryHandled(api.window, api.updateToken, response)
    {
      var options := new RequestOptions(None, map[], NoBody);
      outcome := api.Fetch("items/parent/" + id, options, false, response, AsJson);
    }

    /** `loadFile(file)`: the stored file's content as text. */
    method LoadFile(file: FileRef, response: Response) returns (outcome: Outcome)
      modifies api.window
      ensures outcome == Classify(response, AsText)
      ensures SentOne(api.window,
        Request("/api/" + file.path, None, ComposeHeaders(map[], old(api.window.storedToken), false), NoBody))
      ensures ExpiryHandled(api.window, api.updateToken, response)
    {
      var options := new RequestOptions(None, map[], NoBody);
      outcome := api.Fetch(file.path, options, false, response, AsText);
    }
  }
}
