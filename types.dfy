/** The item records the API exchanges: a tagged union of six item types,
    the ancestry record used for breadcrumbs, and the create/update
    payloads. */
module ApiTypes {
  import opened Js

  /** A stored file as the API describes it. */
  datatype FileRef = FileRef(
    path: string,
    size: int,
    encoding: string,
    filename: string,
    mimetype: string,
    fieldname: string,
    destination: string,
    originalname: string)

  datatype ItemType = Link | Copy | View | File | Group | Password

  predicate CarriesText(t: ItemType) {
    t == Link || t == Copy || t == Password
  }

  predicate CarriesFile(t: ItemType) {
    t == View || t == File
  }

  type TextType = t: ItemType | CarriesText(t) witness Link
  type FileType = t: ItemType | CarriesFile(t) witness File

  /** The union `ItemWithText | ItemWithFile | ItemGroup`; every variant has
      the common base fields, and only its own payload. */
  datatype Item =
    | TextItem(id: int, name: string, logo: Option<seq<FileRef>>, parent: Option<Item>,
               children: Option<seq<Item>>, textType: TextType, text: string)
    | FileItem(id: int, name: string, logo: Option<seq<FileRef>>, parent: Option<Item>,
               children: Option<seq<Item>>, fileType: FileType, file: seq<FileRef>)
    | GroupItem(id: int, name: string, logo: Option<seq<FileRef>>, parent: Option<Item>,
                children: Option<seq<Item>>)

  /** The `type` tag of an item.  The tags partition the union: text for
      link/copy/password, a file for view/file, neither for a group. */
  function TypeOf(item: Item): (t: ItemType)
    ensures item.TextItem? <==> CarriesText(t)
    ensures item.FileItem? <==> CarriesFile(t)
    ensures item.GroupItem? <==> t == Group
  {
    match item
    case TextItem(_, _, _, _, _, t, _) => t
    case FileItem(_, _, _, _, _, t, _) => t
    case GroupItem(_, _, _, _, _) => Group
  }

  /** The string literal of a type tag. */
  function TypeName(t: ItemType): (s: string)
    ensures |s| > 0
  {
    match t
    case Link => "link"
    case Copy => "copy"
    case View => "view"
    case File => "file"
    case Group => "group"
    case Password => "password"
  }

  /** The tag is recoverable from its string, so a `type` form field names
      exactly one item type. */
  lemma TypeNameInjective(a: ItemType, b: ItemType)
    requires TypeName(a) == TypeName(b)
    ensures a == b
  {
    assert TypeName(a)[0] == TypeName(b)[0];
    if TypeName(a)[0] == 'p' {
      assert TypeName(a)[1] == TypeName(b)[1];
    }
  }

  /** An ancestor entry: `Omit<ItemParent, "parents">`, so it cannot carry
      a nested ancestor list. */
  datatype Ancestor = Ancestor(id: int, name: string)

  /** Ancestry record of a container, ordered from the root to the
      immediate parent. */
  datatype ItemParent = ItemParent(id: int, name: string, parents: seq<Ancestor>)

  /** The `itemList` constant: the order the type picker offers. */
  const ItemList: seq<ItemType> := [Group, Link, Copy, View, File, Password]

  /** Every type tag is offered exactly once, and the first is `group`. */
  lemma ItemListEnumeratesEachTypeOnce()
    ensures |ItemList| == 6
    ensures forall t: ItemType :: multiset(ItemList)[t] == 1
    ensures ItemList[0] == Group
  {
    var m := multiset(ItemList);
    assert m == multiset{Group, Link, Copy, View, File, Password};
    forall t: ItemType ensures m[t] == 1 {
      match t
      case Group => assert m[Group] == 1;
      case Link => assert m[Link] == 1;
      case Copy => assert m[Copy] == 1;
      case View => assert m[View] == 1;
      case File => assert m[File] == 1;
      case Password => assert m[Password] == 1;
    }
  }

  /** What a `parent` field may hold: an item, an ancestry record, or (as
      the edit form passes it) a bare id. */
  datatype ParentRef = ParentItem(item: Item) | ParentRecord(record: ItemParent) | ParentId(id: int)

  /** `parent` used as a condition: objects are truthy, the id 0 is not. */
  predicate ParentTruthy(p: Option<ParentRef>) {
    p.Some? && (p.value.ParentId? ==> p.value.id != 0)
  }

  /** Create payload: name and type are always present. */
  datatype CreateItem = CreateItem(
    name: string,
    itemType: ItemType,
    text: Option<string>,
    file: Option<Blob>,
    logo: Option<Blob>,
    parent: Option<ParentRef>)

  /** Update payload: every field is optional. */
  datatype UpdateItem = UpdateItem(
    name: Option<string>,
    itemType: Option<ItemType>,
    text: Option<string>,
    file: Option<Blob>,
    logo: Option<Blob>,
    parent: Option<ParentRef>)
}
