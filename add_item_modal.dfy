/** The create/edit item dialog: a form of five fields (name, logo, type,
    text, file), each with a "changed" flag, that either creates an item or
    sends the changed fields as an update, then resets itself and refetches
    the container's items.  Calls into the item API, the toast and the
    parent's close handler are recorded as effects; the outcome of an
    awaited request is a parameter. */
module AddItemModal {
  import opened Js
  import opened ApiTypes
  import opened Browser
  import opened ApiContext

  /** ASCII upper-casing of one character (`toUpperCase` on the type tags). */
  function UpperAscii(c: char): (u: char)
    ensures 'a' <= c <= 'z' ==> u as int == c as int - 32
    ensures !('a' <= c <= 'z') ==> u == c
  {
    if 'a' <= c <= 'z' then (c as int - 32) as char else c
  }

  /** `s[0].toUpperCase() + s.slice(1)`. */
  function Capitalize(s: string): (r: string)
    requires |s| > 0
    ensures |r| == |s| && r[0] == UpperAscii(s[0]) && r[1..] == s[1..]
  {
    [UpperAscii(s[0])] + s[1..]
  }

  datatype TypeOption = TypeOption(caption: string, value: ItemType)

  /** The dropdown's options: `itemList` in order, each labelled with its
      capitalized tag. */
  function TypeOptions(): (opts: seq<TypeOption>)
    ensures |opts| == |ItemList|
    ensures forall i :: 0 <= i < |opts| ==> opts[i].value == ItemList[i]
    ensures forall i :: 0 <= i < |opts| ==> opts[i].caption == Capitalize(TypeName(ItemList[i]))
  {
    seq(|ItemList|, i requires 0 <= i < |ItemList| => TypeOption(Capitalize(TypeName(ItemList[i])), ItemList[i]))
  }

  /** The type the form starts with and resets to: `types[0].value`. */
  function DefaultType(): ItemType {
    TypeOptions()[0].value
  }

  /** The labels as the picker shows them. */
  function DisplayName(t: ItemType): string {
    match t
    case Group => "Group"
    case Link => "Link"
    case Copy => "Copy"
    case View => "View"
    case File => "File"
    case Password => "Password"
  }

  /** Capitalizing a tag gives its display name. */
  lemma CapitalizedTagIsDisplayName(t: ItemType)
    ensures Capitalize(TypeName(t)) == DisplayName(t)
  {
    var s := TypeName(t);
    assert Capitalize(s) == [UpperAscii(s[0])] + s[1..];
  }

  /** The default is `group`, and every option is labelled with its
      type's display name. */
  lemma TypeOptionLabels()
    ensures DefaultType() == Group
    ensures forall i :: 0 <= i < |TypeOptions()| ==> TypeOptions()[i].caption == DisplayName(TypeOptions()[i].value)
  {
    forall i | 0 <= i < |TypeOptions()|
      ensures TypeOptions()[i].caption == DisplayName(TypeOptions()[i].value)
    {
      CapitalizedTagIsDisplayName(ItemList[i]);
    }
  }

  /** The input the type-specific panel shows (lines 360-429 of the form). */
  datatype PanelInput = NoInput | TextArea | PasswordInput | TextInput | FileInput

  function PanelInputOf(t: ItemType): PanelInput {
    match t
    case Group => NoInput
    case Copy => TextArea
    case Password => PasswordInput
    case Link => TextInput
    case File => FileInput
    case View => FileInput
  }

  /** `getTransitionStyle`: the panel's height in pixels. */
  function PanelHeight(t: ItemType): (h: nat)
    ensures t == Group ==> h == 0
    ensures t == Copy ==> h == 200
    ensures CarriesFile(t) ==> h == 136
    ensures t == Link || t == Password ==> h == 50
  {
    if t == Group then 0
    else if t == Copy then 200
    else if t == File || t == View then 136
    else 50
  }

  /** The panel is collapsed exactly when it shows no input, the files
      panel has its own height, and the text-carrying types all get a
      visible panel. */
  lemma PanelHeightFitsInput(t: ItemType)
    ensures PanelHeight(t) == 0 <==> PanelInputOf(t) == NoInput
    ensures PanelHeight(t) == 136 <==> PanelInputOf(t) == FileInput
    ensures CarriesText(t) <==> PanelHeight(t) in {50, 200}
  {
  }

  const SelectFileMessage := "Please select a file"

  /** The file check: a file or view item needs a chosen, non-empty file. */
  predicate FileMissing(t: ItemType, file: Option<Blob>) {
    CarriesFile(t) && (file.None? || file.value.size == 0)
  }

  /** `parent?.id.toString() || ""`: the container to refetch. */
  function RefetchId(parent: Option<ItemParent>): (id: string)
    ensures parent.None? <==> id == ""
    ensures parent.Some? ==> id == IntToString(parent.value.id)
  {
    if parent.Some? then IntToString(parent.value.id) else ""
  }

  /** The refetch lists the container the dialog was opened in, or the
      root when it was opened at the top. */
  lemma RefetchListsContainer(parent: Option<ItemParent>)
    ensures parent.None? ==> ItemsUrl(Some(RefetchId(parent))) == "items"
    ensures parent.Some? ==> ItemsUrl(Some(RefetchId(parent))) == "items/" + IntToString(parent.value.id)
  {
  }

  /** `parent?.id || undefined`: the update's parent, a bare id, dropped
      when absent or 0. */
  function UpdateParent(parent: Option<ItemParent>): (p: Option<ParentRef>)
    ensures p.Some? <==> parent.Some? && parent.value.id != 0
    ensures p.Some? ==> p == Some(ParentId(parent.value.id))
  {
    if parent.Some? && parent.value.id != 0 then Some(ParentId(parent.value.id)) else None
  }

  /** `flag ? value : undefined`. */
  function IfChanged<T>(changed: bool, value: T): (o: Option<T>)
    ensures o.Some? <==> changed
    ensures changed ==> o.value == value
  {
    if changed then Some(value) else None
  }

  /** The values the item loads into the form.  An item's `logo` (and a
      file item's `file`) array is truthy even when empty, and reading its
      first entry then fails, so loading needs a first entry. */
  predicate Loadable(item: Item) {
    (item.logo.Some? ==> |item.logo.value| > 0) && (item.FileItem? ==> |item.file| > 0)
  }

  /** `item.logo ? createEmptyFile(item.logo[0].originalname) : undefined`. */
  function LogoPlaceholder(item: Item): (b: Option<Blob>)
    requires Loadable(item)
    ensures b.Some? <==> item.logo.Some?
    ensures b.Some? ==> b.value == EmptyFile(item.logo.value[0].originalname)
  {
    if item.logo.Some? then Some(EmptyFile(item.logo.value[0].originalname)) else None
  }

  /** `(item as ItemWithText)?.text || ""`. */
  function TextOf(item: Item): (s: string)
    ensures item.TextItem? ==> s == item.text
    ensures !item.TextItem? ==> s == ""
  {
    if item.TextItem? then item.text else ""
  }

  /** `(item as ItemWithFile)?.file ? createEmptyFile(...) : undefined`. */
  function FilePlaceholder(item: Item): (b: Option<Blob>)
    requires Loadable(item)
    ensures b.Some? <==> item.FileItem?
    ensures b.Some? ==> b.value == EmptyFile(item.file[0].originalname)
  {
    if item.FileItem? then Some(EmptyFile(item.file[0].originalname)) else None
  }

  /** A loaded file item holds only an empty placeholder, which the file
      check refuses: this is why an update runs that check only after the
      file was changed. */
  lemma LoadedFileFailsCheck(item: Item)
    requires Loadable(item)
    ensures CarriesFile(TypeOf(item)) ==> FileMissing(TypeOf(item), FilePlaceholder(item))
    ensures !CarriesFile(TypeOf(item)) ==> !FileMissing(TypeOf(item), FilePlaceholder(item))
  {
  }

  /** The bytes `new File([text])` holds: the UTF-8 length of `text`. */
  function Utf8Size(text: string): (n: nat)
    ensures n >= |text|
    ensures n == 0 <==> text == ""
  {
    if text == [] then 0
    else
      var c := text[0] as int;
      (if c < 0x80 then 1 else if c < 0x800 then 2 else if c < 0x10000 then 3 else 4) + Utf8Size(text[1..])
  }

  /** The paste button's file. */
  function PastedFile(text: string): (b: Blob)
    ensures b.name == "clipboard.txt" && b.size == Utf8Size(text)
  {
    Blob("clipboard.txt", Utf8Size(text))
  }

  /** A pasted file passes the file check exactly when the clipboard held
      text. */
  lemma PastedFilePassesCheck(t: ItemType, text: string)
    ensures FileMissing(t, Some(PastedFile(text))) <==> CarriesFile(t) && text == ""
  {
  }

  /** The two upload widgets: the logo chooser, and the file chooser of the
      file/view panel. */
  datatype UploadWidget = LogoWidget | PayloadWidget

  /** Which form field a chosen file lands in. */
  datatype Slot = LogoSlot | FileSlot

  /** As written, both widgets share `invoiceUploadHandler`, which calls
      `onUpload`, which sets the logo. */
  function UploadSlotAsWritten(w: UploadWidget): (s: Slot)
    ensures s == LogoSlot
  {
    LogoSlot
  }

  /** Each widget fills its own field. */
  function UploadSlot(w: UploadWidget): (s: Slot)
    ensures s == LogoSlot <==> w == LogoWidget
  {
    if w == LogoWidget then LogoSlot else FileSlot
  }

  /** The update the form sends: each of name, logo, type, text and file
      exactly when its flag is set, and the parent's id. */
  function UpdatePayload(
    name: string, nameChanged: bool, logo: Option<Blob>, logoChanged: bool,
    t: ItemType, typeChanged: bool, text: string, textChanged: bool,
    file: Option<Blob>, fileChanged: bool, parent: Option<ItemParent>): (u: UpdateItem)
    ensures u.name.Some? <==> nameChanged
    ensures u.itemType.Some? <==> typeChanged
    ensures u.text.Some? <==> textChanged
    ensures nameChanged ==> u.name.value == name
    ensures typeChanged ==> u.itemType.value == t
    ensures textChanged ==> u.text.value == text
    ensures u.logo == (if logoChanged then logo else None)
    ensures u.file == (if fileChanged then file else None)
    ensures u.parent == UpdateParent(parent)
  {
    UpdateItem(IfChanged(nameChanged, name), IfChanged(typeChanged, t), IfChanged(textChanged, text),
      if fileChanged then file else None, if logoChanged then logo else None, UpdateParent(parent))
  }

  /** On the wire, the update carries a name or text only when it was
      changed to something non-empty (a field cleared to "" is not sent),
      the type exactly when changed, and a logo or file only when changed
      to a chosen one. */
  lemma UpdateWireFields(
    name: string, nameChanged: bool, logo: Option<Blob>, logoChanged: bool,
    t: ItemType, typeChanged: bool, text: string, textChanged: bool,
    file: Option<Blob>, fileChanged: bool, parent: Option<ItemParent>)
    ensures var form := Entries(FieldCount, UpdateSent(UpdatePayload(name, nameChanged, logo, logoChanged,
        t, typeChanged, text, textChanged, file, fileChanged, parent)));
      && (Lookup(form, NameField).Some? <==> nameChanged && Truthy(name))
      && (Lookup(form, TypeField) == if typeChanged then Some(FormString(TypeName(t))) else None)
      && (Lookup(form, TextField).Some? <==> textChanged && Truthy(text))
      && (Lookup(form, LogoField).Some? <==> logoChanged && logo.Some?)
      && (Lookup(form, FileField).Some? <==> fileChanged && file.Some?)
      && (Lookup(form, ParentField).Some? <==> parent.Some? && parent.value.id != 0)
  {
    UpdateFormContents(UpdatePayload(name, nameChanged, logo, logoChanged,
        t, typeChanged, text, textChanged, file, fileChanged, parent));
  }

  datatype Mode = CreateMode | EditMode

  /** What the dialog asks of the world. */
  datatype Effect =
    | ToastError(message: string)
    | CallCreate(item: CreateItem)
    | CallUpdate(id: string, update: UpdateItem)
    | CallFetchItems(id: string)
    | CallClose

  class Modal {
    var name: string
    var nameChanged: bool
    var logo: Option<Blob>
    var logoChanged: bool
    var itemType: ItemType
    var typeChanged: bool
    var text: string
    var textChanged: bool
    var file: Option<Blob>
    var fileChanged: bool

    /** The props: the mode, the item under edit and the container. */
    var mode: Mode
    var item: Option<Item>
    var parent: Option<ItemParent>

    /** Every effect so far, in order. */
    var effects: seq<Effect>

    /** The props the parent passed are loadable items. */
    ghost predicate Valid()
      reads this
    {
      item.Some? ==> Loadable(item.value)
    }

    /** The five changed flags are untouched. */
    twostate predicate SameFlags()
      reads this
    {
      nameChanged == old(nameChanged) && logoChanged == old(logoChanged) && typeChanged == old(typeChanged)
      && textChanged == old(textChanged) && fileChanged == old(fileChanged)
    }

    /** The five field values are untouched. */
    twostate predicate SameValues()
      reads this
    {
      name == old(name) && logo == old(logo) && itemType == old(itemType) && text == old(text) && file == old(file)
    }

    twostate predicate SameProps()
      reads this
    {
      mode == old(mode) && item == old(item) && parent == old(parent)
    }

    /** Some field was edited since the last show. */
    predicate AnyChanged()
      reads this
    {
      nameChanged || logoChanged || typeChanged || textChanged || fileChanged
    }

    /** The state after the reset: empty name and text, no logo or file,
        the default type. */
    predicate Blank()
      reads this
    {
      name == "" && logo.None? && itemType == DefaultType() && text == "" && file.None?
    }

    /** The fields loaded from `it`. */
    predicate HoldsItem(it: Item)
      reads this
      requires Loadable(it)
    {
      name == it.name && logo == LogoPlaceholder(it) && itemType == TypeOf(it)
      && text == TextOf(it) && file == FilePlaceholder(it)
    }

    /** What `handleCreate` does.  A file or view item without a chosen,
        non-empty file is refused with a toast and no request.  Otherwise
        one create carries the form's values and the container; if it
        resolved, the form closes, resets and refetches the container, and
        if it rejected nothing further happens.  The flags stay. */
    twostate predicate CreateStep(created: bool)
      reads this
    {
      && SameFlags() && SameProps()
      && (FileMissing(old(itemType), old(file)) ==>
            effects == old(effects) + [ToastError(SelectFileMessage)] && SameValues())
      && (!FileMissing(old(itemType), old(file)) ==>
            var request := CallCreate(CreateItem(old(name), old(itemType), Some(old(text)), old(file), old(logo),
              if old(parent).Some? then Some(ParentRecord(old(parent).value)) else None));
            if created then
              effects == old(effects) + [request, CallClose, CallFetchItems(RefetchId(old(parent)))] && Blank()
            else
              effects == old(effects) + [request] && SameValues())
    }

    /** What `handleUpdate` does.  The file check applies only to a changed
        file; with no item nothing happens; with no flag set the form just
        closes; otherwise one update carries `UpdatePayload`, and if it
        resolved the form closes, resets and refetches the container.  The
        flags stay. */
    twostate predicate UpdateStep(updated: bool)
      reads this
    {
      && SameFlags() && SameProps()
      && (old(fileChanged) && FileMissing(old(itemType), old(file)) ==>
            effects == old(effects) + [ToastError(SelectFileMessage)] && SameValues())
      && (!(old(fileChanged) && FileMissing(old(itemType), old(file))) && old(item).None? ==>
            effects == old(effects) && SameValues())
      && (!(old(fileChanged) && FileMissing(old(itemType), old(file))) && old(item).Some? && !old(AnyChanged()) ==>
            effects == old(effects) + [CallClose] && Blank())
      && (!(old(fileChanged) && FileMissing(old(itemType), old(file))) && old(item).Some? && old(AnyChanged()) ==>
            var request := CallUpdate(IntToString(old(item).value.id),
              UpdatePayload(old(name), old(nameChanged), old(logo), old(logoChanged), old(itemType), old(typeChanged),
                old(text), old(textChanged), old(file), old(fileChanged), old(parent)));
            if updated then
              effects == old(effects) + [request, CallClose, CallFetchItems(RefetchId(old(parent)))] && Blank()
            else
              effects == old(effects) + [request] && SameValues())
    }

    /** The browser's constraint check on the form's `required` inputs: a
        non-empty name and, when the type shows a text input (copy,
        password, link), a non-empty text.  The type dropdown always holds
        a value. */
    predicate RequiredFilled()
      reads this
    {
      name != "" && (CarriesText(itemType) ==> text != "")
    }

    /** The first render: the state initialisers.  The type always starts
        at the default; the `[item]` effect that follows the first render
        (`ItemEffect`) then loads the item's type too. */
    constructor(mode: Mode, item: Option<Item>, parent: Option<ItemParent>)
      requires item.Some? ==> Loadable(item.value)
      ensures Valid()
      ensures this.mode == mode && this.item == item && this.parent == parent && effects == []
      ensures item.None? ==> Blank()
      ensures item.Some? ==>
        name == item.value.name && logo == LogoPlaceholder(item.value)
        && text == TextOf(item.value) && file == FilePlaceholder(item.value)
      ensures itemType == DefaultType()
      ensures !nameChanged && !logoChanged && !typeChanged && !textChanged && !fileChanged
    {
      this.mode := mode;
      this.item := item;
      this.parent := parent;
      effects := [];
      name := if item.Some? then item.value.name else "";
      logo := if item.Some? then LogoPlaceholder(item.value) else None;
      itemType := DefaultType();
      text := if item.Some? then TextOf(item.value) else "";
      file := if item.Some? then FilePlaceholder(item.value) else None;
      nameChanged, logoChanged, typeChanged, textChanged, fileChanged := false, false, false, false, false;
    }

    /** Loads the item's fields into the form, leaving the flags alone. */
    method LoadItem(it: Item)
      requires Loadable(it)
      modifies this
      ensures HoldsItem(it)
      ensures SameFlags() && SameProps() && effects == old(effects)
    {
      name := it.name;
      logo := LogoPlaceholder(it);
      itemType := TypeOf(it);
      text := TextOf(it);
      file := FilePlaceholder(it);
    }

    /** A new `item` prop and the `[item]` effect: an item is loaded, an
        absent one leaves the form as it is. */
    method ItemEffect(newItem: Option<Item>)
      requires newItem.Some? ==> Loadable(newItem.value)
      modifies this
      ensures Valid() && item == newItem && mode == old(mode) && parent == old(parent)
      ensures newItem.Some? ==> HoldsItem(newItem.value)
      ensures newItem.None? ==> SameValues()
      ensures SameFlags() && effects == old(effects)
    {
      item := newItem;
      if newItem.Some? {
        LoadItem(newItem.value);
      }
    }

    method EditName(value: string)
      modifies this
      ensures name == value && nameChanged
      ensures logo == old(logo) && itemType == old(itemType) && text == old(text) && file == old(file)
      ensures logoChanged == old(logoChanged) && typeChanged == old(typeChanged)
      ensures textChanged == old(textChanged) && fileChanged == old(fileChanged)
      ensures SameProps() && effects == old(effects)
    {
      name, nameChanged := value, true;
    }

    method EditType(value: ItemType)
      modifies this
      ensures itemType == value && typeChanged
      ensures name == old(name) && logo == old(logo) && text == old(text) && file == old(file)
      ensures nameChanged == old(nameChanged) && logoChanged == old(logoChanged)
      ensures textChanged == old(textChanged) && fileChanged == old(fileChanged)
      ensures SameProps() && effects == old(effects)
    {
      itemType, typeChanged := value, true;
    }

    /** Any of the three text inputs (copy, password, link). */
    method EditText(value: string)
      modifies this
      ensures text == value && textChanged
      ensures name == old(name) && logo == old(logo) && itemType == old(itemType) && file == old(file)
      ensures nameChanged == old(nameChanged) && logoChanged == old(logoChanged)
      ensures typeChanged == old(typeChanged) && fileChanged == old(fileChanged)
      ensures SameProps() && effects == old(effects)
    {
      text, textChanged := value, true;
    }

    /** A file chosen in widget `w` lands in that widget's field and marks
        it changed (the intended routing; see `UploadSlotAsWritten`). */
    method Upload(w: UploadWidget, chosen: Blob)
      modifies this
      ensures UploadSlot(w) == LogoSlot ==>
        logo == Some(chosen) && logoChanged && file == old(file) && fileChanged == old(fileChanged)
      ensures UploadSlot(w) == FileSlot ==>
        file == Some(chosen) && fileChanged && logo == old(logo) && logoChanged == old(logoChanged)
      ensures name == old(name) && itemType == old(itemType) && text == old(text)
      ensures nameChanged == old(nameChanged) && typeChanged == old(typeChanged) && textChanged == old(textChanged)
      ensures SameProps() && effects == old(effects)
    {
      if UploadSlot(w) == LogoSlot {
        logo, logoChanged := Some(chosen), true;
      } else {
        file, fileChanged := Some(chosen), true;
      }
    }

    /** `handlePaste`: the clipboard text becomes the file. */
    method Paste(clipboard: string)
      modifies this
      ensures file == Some(PastedFile(clipboard)) && fileChanged
      ensures name == old(name) && logo == old(logo) && itemType == old(itemType) && text == old(text)
      ensures nameChanged == old(nameChanged) && logoChanged == old(logoChanged)
      ensures typeChanged == old(typeChanged) && textChanged == old(textChanged)
      ensures SameProps() && effects == old(effects)
    {
      file, fileChanged := Some(PastedFile(clipboard)), true;
    }

    /** `handleCloseCleanForm`: close, then reset the five values.  The
        changed flags are left as they are. */
    method CloseCleanForm()
      modifies this
      ensures Blank()
      ensures effects == old(effects) + [CallClose]
      ensures SameFlags() && SameProps()
    {
      effects := effects + [CallClose];
      name := "";
      logo := None;
      itemType := DefaultType();
      text := "";
      file := None;
    }

    /** `handleShow`: clear every flag, and load the item if there is one. */
    method Show()
      requires Valid()
      modifies this
      ensures Valid()
      ensures !nameChanged && !logoChanged && !typeChanged && !textChanged && !fileChanged
      ensures item.Some? ==> HoldsItem(item.value)
      ensures item.None? ==> SameValues()
      ensures SameProps() && effects == old(effects)
    {
      nameChanged, logoChanged, typeChanged, textChanged, fileChanged := false, false, false, false, false;
      if item.Some? {
        LoadItem(item.value);
      }
    }

    /** `handleCreate`.  `created` is whether the awaited request resolved;
        if it rejected, the reset and the refetch never run. */
    method HandleCreate(created: bool)
      modifies this
      ensures CreateStep(created)
    {
      if CarriesFile(itemType) && (file.None? || file.value.size == 0) {
        effects := effects + [ToastError(SelectFileMessage)];
        return;
      }
      var parentRef := if parent.Some? then Some(ParentRecord(parent.value)) else None;
      effects := effects + [CallCreate(CreateItem(name, itemType, Some(text), file, logo, parentRef))];
      if !created {
        return;
      }
      CloseCleanForm();
      effects := effects + [CallFetchItems(RefetchId(parent))];
    }

    /** `handleUpdate`.  The file check applies only to a changed file; with
        no item nothing happens; with no flag set the form just closes. */
    method HandleUpdate(updated: bool)
      modifies this
      ensures UpdateStep(updated)
    {
      if fileChanged && CarriesFile(itemType) && (file.None? || file.value.size == 0) {
        effects := effects + [ToastError(SelectFileMessage)];
        return;
      }
      if item.None? {
        return;
      }
      if !nameChanged && !logoChanged && !typeChanged && !textChanged && !fileChanged {
        CloseCleanForm();
        return;
      }
      var update := UpdatePayload(name, nameChanged, logo, logoChanged, itemType, typeChanged,
        text, textChanged, file, fileChanged, parent);
      effects := effects + [CallUpdate(IntToString(item.value.id), update)];
      if !updated {
        return;
      }
      CloseCleanForm();
      effects := effects + [CallFetchItems(RefetchId(parent))];
    }

    /** `handleFormSubmit`: create or update by mode. */
    method FormSubmit(succeeded: bool)
      modifies this
      ensures old(mode) == CreateMode ==> CreateStep(succeeded)
      ensures old(mode) == EditMode ==> UpdateStep(succeeded)
    {
      if mode == CreateMode {
        HandleCreate(succeeded);
      } else {
        HandleUpdate(succeeded);
      }
    }

    /** The submit button: the browser runs `handleFormSubmit` only when
        every `required` input is filled, and otherwise blocks the submit. */
    method Submit(succeeded: bool) returns (submitted: bool)
      modifies this
      ensures submitted == old(RequiredFilled())
      ensures !submitted ==> SameValues() && SameFlags() && SameProps() && effects == old(effects)
      ensures submitted && old(mode) == CreateMode ==> CreateStep(succeeded)
      ensures submitted && old(mode) == EditMode ==> UpdateStep(succeeded)
    {
      submitted := RequiredFilled();
      if submitted {
        FormSubmit(succeeded);
      }
    }

    /** As written: either upload widget calls `onUpload`, which sets the
        logo and marks it changed. */
    method UploadAsWritten(w: UploadWidget, chosen: Blob)
      modifies this
      ensures UploadSlotAsWritten(w) == LogoSlot
      ensures logo == Some(chosen) && logoChanged
      ensures name == old(name) && itemType == old(itemType) && text == old(text) && file == old(file)
      ensures nameChanged == old(nameChanged) && typeChanged == old(typeChanged)
      ensures textChanged == old(textChanged) && fileChanged == old(fileChanged)
      ensures SameProps() && effects == old(effects)
    {
      logo, logoChanged := Some(chosen), true;
    }
  }

  /** As written: in a fresh create dialog, name the item, pick the file
      type and choose a non-empty file in the file panel.  The chosen file
      goes to the logo, so submitting is refused with "Please select a
      file" and no create is requested. */
  method PayloadUploadAsWritten(itemName: string, chosen: Blob, parent: Option<ItemParent>, created: bool)
    returns (effects: seq<Effect>)
    requires itemName != "" && chosen.size > 0
    ensures effects == [ToastError(SelectFileMessage)]
  {
    var m := new Modal(CreateMode, None, parent);
    m.EditName(itemName);
    m.EditType(File);
    m.UploadAsWritten(PayloadWidget, chosen);
    var submitted := m.Submit(created);
    effects := m.effects;
  }

  /** With each widget filling its own field, the same steps request the
      creation of a file item carrying the chosen file and no logo. */
  method PayloadUploadCreates(itemName: string, chosen: Blob, parent: Option<ItemParent>, created: bool)
    returns (effects: seq<Effect>)
    requires itemName != "" && chosen.size > 0
    ensures |effects| >= 1
    ensures effects[0] == CallCreate(CreateItem(itemName, File, Some(""), Some(chosen), None,
      if parent.Some? then Some(ParentRecord(parent.value)) else None))
    ensures ToastError(SelectFileMessage) !in effects
  {
    var m := new Modal(CreateMode, None, parent);
    m.EditName(itemName);
    m.EditType(File);
    m.Upload(PayloadWidget, chosen);
    var submitted := m.Submit(created);
    effects := m.effects;
  }
}
