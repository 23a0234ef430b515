# Dashboard item vault front end, modelled in Dafny

This project models the client-side logic of a personal item vault's web
front end (a Next.js/React app). Items are links, copy snippets, passwords,
viewable files, downloadable files and groups. They form a tree and are
stored behind a REST API. The model covers these parts:

- **Item records** (`ApiTypes`, types.dfy). The item tagged union, the
  ancestry record, the type list and the create/update payloads.
  - An ancestry entry has only an id and a name, because the `Ancestor`
    datatype has no `parents` field.
  - The create payload's name and type are plain fields, while every update
    field is an `Option`.
- **The request helper** (`Http`, http.dfy).
  - It stamps `Authorization: Bearer <token>` onto the caller's options,
    which it mutates. A missing token gives `"Bearer null"`.
  - It adds a default `Content-Type` unless told not to, and sends the
    request under `/api/`.
  - It classifies the reply. On a "token expired" error it clears the
    stored token and fires the session's hook.
- **The item API context** (`ApiContext`, api_context.dfy).
  - The listing and its loading flag.
  - How the create and update multipart forms are built by conditional
    appends.
  - The delete URL choice, and the `fetchItem`/`fetchParent` aliasing.
- **The press-then-drag gesture of an item card** (`ItemCard`,
  item_card.dfy).
  - Each press has its own release listeners and a 100 ms timer.
  - The drag is armed only if the press is still active when the timer
    fires. The four document listeners of a drag are attached and detached
    as a group.
  - A card under drag follows the pointer. A click is swallowed while a drag
    is armed, and then the card springs back.
- **The create/edit dialog** (`AddItemModal`, add_item_modal.dfy).
  - The type options and the panel heights.
  - The file-required check, and the changed-flags diff that shapes an
    update.
  - The form reset on close and on show.
- **The selected card's overlay** (`EditItemOverlay`). A direct delete
  happens only for a known-childless item. Anything else is confirmed first
  and then deleted as a cascade.
- **The session context** (`AuthContext`). The start-up check, the
  loading-screen effect, and login and logout.
- **The home page's dialog state** (`HomePage`).
- **The API-key page's list operations** (`ApiManager`).

The browser is modelled by the `Browser.Window` class:
- the token in local storage;
- the router's pathname and the destinations pushed to it;
- the log of requests handed to `window.fetch`.

The network reply is a parameter of each operation that awaits one. React
state setters become assignments to class fields. Calls from a component
into context functions, the toast, or a parent callback are appended to a
recorded `effects` sequence. Timers are methods the caller invokes when the
timer fires.

The press window is 100 ms (`src/components/items/ItemCard.tsx:144`). A
release before the timer leaves the press inactive, so when the timer fires
it only removes that press's two release listeners and does not arm the
drag; selection comes from the long-press hook alone.

## Model

| member | source | states |
|---|---|---|
| Js.IntToString | src/components/items/EditItemOverlay.tsx:21 | `id.toString()` is a non-empty, hence truthy, string of digits and at most a leading minus, starting with a digit exactly for non-negative ids |
| Js.NatToStringInjective | src/components/items/EditItemOverlay.tsx:21 | distinct naturals print as distinct decimal strings |
| Js.IntToStringInjective | src/contexts/ApiContext.tsx:143 | distinct ids print as distinct strings, so an id in a URL names one item |
| Js.EmptyFile | src/components/items/AddItemModal.tsx:20-23 | the placeholder `File` carries the stored file's name and has size 0 |
| ApiTypes.TypeOf | types/api.ts:20-34 | the type tag partitions the union: text items are exactly link/copy/password, file items exactly view/file, groups exactly group |
| ApiTypes.TypeNameInjective | types/api.ts:42-48 | distinct type tags have distinct string literals |
| ApiTypes.ItemListEnumeratesEachTypeOnce | types/api.ts:49-56 | `itemList` has six entries, holds every type exactly once, and starts with group |
| Browser.FieldNameInjective | src/contexts/ApiContext.tsx:72-77 | the six multipart field names are pairwise distinct |
| Browser.Window.GoTo | src/contexts/AutchContext.tsx:39-45 | afterwards the router shows the destination; a push is recorded exactly when it was elsewhere before; token and request log unchanged |
| Http.ErrorMessage | src/utils/api.ts:33 | a message `t` is found exactly when the body is an object whose `error` field is the string `t` |
| Http.AuthorizationValue | src/utils/api.ts:17 | the header is `"Bearer "` plus the stored token, and `"Bearer null"` when none is stored (the `?? ""` never applies) |
| Http.ComposeHeaders | src/utils/api.ts:15-24 | Authorization is always set and overrides the caller's; caller headers are kept; Content-Type is added (caller's value, else `application/json`) exactly unless `noContentType` |
| Http.Classify | src/utils/api.ts:26-38 | a call returns exactly on an ok reply that decodes; a network failure, or an ok JSON reply that does not parse, is wrapped as `{error}`; every error reply with a non-null JSON body (in particular a token-expired one) is rethrown as that body, one that does not parse or is `null` rejects with the parse or property-access error; returned values are the decoded JSON or the text |
| Http.DecodingOnlyAffectsSuccess | src/utils/api.ts:40-73 | `fetch` and `fetchPlain` classify every non-success reply identically and differ only in decoding a success |
| Http.ApiClient.Fetch | src/utils/api.ts:6-39 | the options' headers are replaced by the composed headers; exactly one request to `/api/` + url is logged; the outcome is `Classify`; the token is cleared and the hook fired exactly on a token-expired reply |
| ApiContext.ItemsUrl | src/contexts/ApiContext.tsx:53 | the listing URL is `items` for an undefined or empty id and `items/{id}` otherwise |
| ApiContext.DeleteUrlInjective | src/contexts/ApiContext.tsx:143 | for numeric ids the delete URL determines both the id and whether the delete cascades |
| ApiContext.ItemsAndParentUrlsDisjoint | src/contexts/ApiContext.tsx:135-138 | a listing URL never equals an ancestry URL |
| ApiContext.LookupAppend | src/contexts/ApiContext.tsx:71-77 | `formData.get` on a concatenation finds the front's entry first, else the back's |
| ApiContext.BuildForm | src/contexts/ApiContext.tsx:71-77 | the six conditional appends produce exactly `Entries(6, s)` |
| ApiContext.EntriesLookup | src/contexts/ApiContext.tsx:71-77 | after the first k appends, a field is present with its value iff its guard passed and it is among the first k |
| ApiContext.EntriesOrdered | src/contexts/ApiContext.tsx:104-110 | fields appear at most once each and in the fixed append order |
| ApiContext.EntriesEmpty | src/contexts/ApiContext.tsx:104-110 | the form is empty iff every guard failed |
| ApiContext.CreateFormContents | src/contexts/ApiContext.tsx:72-77 | a create form always carries name and type, carries parent (as JSON) iff truthy, text iff non-empty, logo and file iff chosen |
| ApiContext.UpdateFormContents | src/contexts/ApiContext.tsx:105-110 | an update form carries each field iff truthy, and is empty iff all are falsy |
| ApiContext.FetchItemIsFetchParent | src/contexts/ApiContext.tsx:160-171 | the context's `fetchItem` is bound to `fetchParent`, and no `refreshToken` is provided |
| ApiContext.ApiProvider.FetchItems | src/contexts/ApiContext.tsx:49-61 | loading goes true then false; one GET of `ItemsUrl(id)`; on success items and result are the body, on failure items are unchanged and the result is `[]` |
| ApiContext.ApiProvider.Create | src/contexts/ApiContext.tsx:69-100 | one POST to `/api/items` with only an Authorization header and the create form as body; it resolves iff the reply is a decoded success |
| ApiContext.ApiProvider.Update | src/contexts/ApiContext.tsx:102-133 | one PUT to `/api/items/{id}` with only an Authorization header and the update form as body; it resolves iff the reply is a decoded success |
| ApiContext.ApiProvider.Delete | src/contexts/ApiContext.tsx:140-157 | one DELETE to `items/group/{id}` iff `isGroup`, else `items/{id}`, with the default JSON content type |
| ApiContext.ApiProvider.FetchParent | src/contexts/ApiContext.tsx:135-138 | one GET of `items/parent/{id}` whose outcome is the classified reply |
| ApiContext.ApiProvider.LoadFile | src/contexts/ApiContext.tsx:63-67 | one GET of the file's path decoded as text |
| ItemCard.ListenerGroups | src/components/items/ItemCard.tsx:147-161 | the drag group is exactly the two release events bound to the drag's mouse-up handler and the two move events bound to its move handler |
| ItemCard.RegisterPress | src/components/items/ItemCard.tsx:124-131 | adding a press with its two release listeners keeps the document's listener set exactly the pending presses' releases plus the attached drag |
| ItemCard.ForgetPress | src/components/items/ItemCard.tsx:132-134 | removing a fired press and its release listeners preserves that characterization |
| ItemCard.DetachDrag | src/components/items/ItemCard.tsx:96-102 | removing the drag group leaves exactly the pending presses' release listeners |
| ItemCard.Rearm | src/components/items/ItemCard.tsx:147-161 | swapping the old render's drag group for the new one leaves the new drag attached and nothing of the old |
| ItemCard.DragOffset | src/components/items/ItemCard.tsx:138-142 | offset + origin = client + scroll, on both axes |
| ItemCard.FollowPosition | src/components/items/ItemCard.tsx:107-117 | the pinned position plus the offset is the pointer; without an offset the card sits at the pointer |
| ItemCard.PickUpPosition | src/components/items/ItemCard.tsx:107-142 | at the arming point the card is pinned at its origin minus the scroll, staying in place exactly when the page is unscrolled |
| ItemCard.FollowTracksPointer | src/components/items/ItemCard.tsx:107-117 | the pinned card moves by exactly the pointer's displacement |
| ItemCard.ListenerGroupsDisjoint | src/components/items/ItemCard.tsx:96-102 | release groups and drag groups never share a listener, drags of different renders never share one, and the groups have 2 and 4 members |
| ItemCard.Card.constructor | src/components/items/ItemCard.tsx:43-53 | the card starts unselected, unarmed, with no offset, no styles, no presses and no listeners |
| ItemCard.Card.PointerDown | src/components/items/ItemCard.tsx:124-131 | a new active press at the pointer with its two release listeners; drag and look unchanged |
| ItemCard.Card.Dispatch | src/components/items/ItemCard.tsx:96-129 | a release makes every pending press inactive and detaches the drag group, leaving `moveSelected` and the offset unchanged; a move reaches the handler only while registered, pinning the card at `FollowPosition` and collapsing the wrapper |
| ItemCard.Card.TimerFires | src/components/items/ItemCard.tsx:132-144 | the press and its release listeners go either way; only a still-active press on a mounted card arms the drag with `DragOffset`; otherwise the drag state is unchanged |
| ItemCard.Card.Arm | src/components/items/ItemCard.tsx:141-162 | recording the offset sets `moveSelected` and replaces the previous drag group by the new render's four listeners |
| ItemCard.Card.RestartPosition | src/components/items/ItemCard.tsx:65-94 | `moveSelected` becomes false; with both boxes measurable the wrapper is raised and one spring-back and one reset timer are pending |
| ItemCard.Card.Click | src/components/items/ItemCard.tsx:164-173 | swallowed exactly while armed, which disarms and springs back (the wrapper raised and both timers scheduled when measurable, the look otherwise kept, selection and card style unchanged); otherwise nothing changes |
| ItemCard.Card.CentreTimerFires | src/components/items/ItemCard.tsx:73-89 | the spring-back timer sets the centring style |
| ItemCard.Card.ResetTimerFires | src/components/items/ItemCard.tsx:90-93 | the reset timer clears both inline styles |
| ItemCard.Card.LongPress | src/components/items/ItemCard.tsx:55-63 | a long press selects the card and changes nothing else |
| ItemCard.Card.SetSelected | src/components/items/ItemCard.tsx:215-220 | the overlay's `setSelected` sets the selection only |
| ItemCard.Card.Unmount | src/components/items/ItemCard.tsx:155-160 | the effect cleanup detaches exactly the current drag group |
| AddItemModal.Capitalize | src/components/items/AddItemModal.tsx:29 | the label is the tag with its first character upper-cased and the rest unchanged |
| AddItemModal.TypeOptions | src/components/items/AddItemModal.tsx:25-31 | one option per `itemList` entry, in order, labelled by capitalizing its tag |
| AddItemModal.CapitalizedTagIsDisplayName | src/components/items/AddItemModal.tsx:29 | capitalizing each tag yields its display name ("Group", "Link", …) |
| AddItemModal.TypeOptionLabels | src/components/items/AddItemModal.tsx:25-48 | the default type `types[0].value` is group, and each option shows its type's display name |
| AddItemModal.PanelHeight | src/components/items/AddItemModal.tsx:177-199 | group 0 px, copy 200 px, file/view 136 px, link/password 50 px |
| AddItemModal.PanelHeightFitsInput | src/components/items/AddItemModal.tsx:356-430 | the panel is collapsed exactly when it shows no input, 136 px exactly for the file input, and visible for every text-carrying type |
| AddItemModal.RefetchId | src/components/items/AddItemModal.tsx:90 | the refetch id is empty exactly without a parent, else the parent id's string |
| AddItemModal.RefetchListsContainer | src/components/items/AddItemModal.tsx:90 | the refetch lists the dialog's container, or the root |
| AddItemModal.UpdateParent | src/components/items/AddItemModal.tsx:122 | the update's parent is the bare parent id, absent when there is no parent or its id is 0 |
| AddItemModal.LogoPlaceholder | src/components/items/AddItemModal.tsx:62-64 | a logo placeholder exists iff the item has a logo list, named after its first file |
| AddItemModal.TextOf | src/components/items/AddItemModal.tsx:66 | the loaded text is the item's text for text items and empty otherwise |
| AddItemModal.FilePlaceholder | src/components/items/AddItemModal.tsx:67-71 | a file placeholder exists iff the item is a file item, named after its first file |
| AddItemModal.LoadedFileFailsCheck | src/components/items/AddItemModal.tsx:94-101 | a loaded file item's empty placeholder fails the file check, which is why the update runs that check only for a changed file |
| AddItemModal.Utf8Size | src/components/items/AddItemModal.tsx:213 | the pasted file's size is at least the text's length and 0 exactly for empty text |
| AddItemModal.PastedFile | src/components/items/AddItemModal.tsx:210-216 | the pasted file is `clipboard.txt` holding the text's bytes |
| AddItemModal.PastedFilePassesCheck | src/components/items/AddItemModal.tsx:210-216 | a pasted file fails the check exactly when the type needs a file and the clipboard was empty |
| AddItemModal.UploadSlotAsWritten | src/components/items/AddItemModal.tsx:405-421 | as written, both upload widgets deliver into the logo |
| AddItemModal.UploadSlot | src/components/items/AddItemModal.tsx:240-255 | each widget delivers into its own field: the logo widget into the logo, the file-panel widget into the file |
| AddItemModal.PayloadUploadAsWritten | src/components/items/AddItemModal.tsx:240-255 | as written, a fresh create dialog that is named, set to the file type and given a non-empty file in the file panel is refused on submit with "Please select a file" and requests no create |
| AddItemModal.PayloadUploadCreates | src/components/items/AddItemModal.tsx:75-91 | with each widget filling its own field, the same steps request a create of that file item with the chosen file and no logo, and no toast |
| AddItemModal.UpdatePayload | src/components/items/AddItemModal.tsx:116-123 | name, type and text are present iff their flag is set, logo and file are the chosen value iff their flag is set, and the parent is `UpdateParent` |
| AddItemModal.UpdateWireFields | src/components/items/AddItemModal.tsx:116-123 | on the wire a name or text is sent only when changed to non-empty, the type exactly when changed, logo and file only when changed to a chosen file, the parent only for a non-zero id |
| AddItemModal.Modal.constructor | src/components/items/AddItemModal.tsx:42-57 | initial values come from the item (name, logo and file placeholders, text), the type starts at the default, and every flag is clear |
| AddItemModal.Modal.LoadItem | src/components/items/AddItemModal.tsx:59-73 | the five values become the item's, and the flags are untouched |
| AddItemModal.Modal.ItemEffect | src/components/items/AddItemModal.tsx:59-73 | a new item is loaded; an absent one leaves the form as it is |
| AddItemModal.Modal.EditName | src/components/items/AddItemModal.tsx:282-285 | typing sets the name and its flag only |
| AddItemModal.Modal.EditType | src/components/items/AddItemModal.tsx:349-352 | choosing sets the type and its flag only |
| AddItemModal.Modal.EditText | src/components/items/AddItemModal.tsx:363-400 | each of the three text inputs sets the text and its flag only |
| AddItemModal.Modal.Upload | src/components/items/AddItemModal.tsx:252-255 | a chosen file lands in the widget's own field (`UploadSlot`) and marks that field changed |
| AddItemModal.Modal.UploadAsWritten | src/components/items/AddItemModal.tsx:240-255 | as written, a file chosen in either widget becomes the logo and sets the logo flag only |
| AddItemModal.Modal.Paste | src/components/items/AddItemModal.tsx:210-216 | the pasted file becomes the file, and the file flag is set |
| AddItemModal.Modal.CloseCleanForm | src/components/items/AddItemModal.tsx:128-137 | the close handler is called; name and text become "", logo and file undefined, the type the default; the flags stay |
| AddItemModal.Modal.Show | src/components/items/AddItemModal.tsx:218-238 | all five flags are cleared, and an item's values are loaded |
| AddItemModal.Modal.HandleCreate | src/components/items/AddItemModal.tsx:75-91 | `CreateStep`: refused with a toast and no call iff `FileMissing`; otherwise one create call with the form's values, then (if it resolved) close, reset and refetch the container; flags and props stay |
| AddItemModal.Modal.HandleUpdate | src/components/items/AddItemModal.tsx:93-126 | `UpdateStep`: the file check applies only to a changed file; without an item nothing happens; with no flag set it just closes; otherwise one update with `UpdatePayload`, then (if resolved) close, reset and refetch |
| AddItemModal.Modal.FormSubmit | src/components/items/AddItemModal.tsx:201-208 | in create mode it does exactly what `handleCreate` does (`CreateStep`), in edit mode exactly what `handleUpdate` does (`UpdateStep`) |
| AddItemModal.Modal.Submit | src/components/items/AddItemModal.tsx:272-288 | the submit runs `handleFormSubmit` exactly when the `required` name and, for copy/password/link, text are non-empty; otherwise the form is untouched |
| EditItemOverlay.RefetchTarget | src/components/items/EditItemOverlay.tsx:23 | the refetch target is absent exactly without a parent, else the parent id's string |
| EditItemOverlay.RefetchListsContainer | src/components/items/EditItemOverlay.tsx:32 | the refetch after a delete lists the deleted item's container, or the root |
| EditItemOverlay.DeleteRoutes | src/components/items/EditItemOverlay.tsx:21-30 | a direct delete targets `items/{id}`, a confirmed one `items/group/{id}`, and they differ |
| EditItemOverlay.Overlay.HandleDelete | src/components/items/EditItemOverlay.tsx:19-27 | only an item whose children are known and none is deleted at once (non-cascading, then deselect and refetch if resolved); any other only opens the confirmation |
| EditItemOverlay.Overlay.DeleteConfirm | src/components/items/EditItemOverlay.tsx:40-48 | the confirmation opens and nothing is deleted |
| EditItemOverlay.Overlay.Accept | src/components/items/EditItemOverlay.tsx:29-33 | a cascading delete, then (if resolved) deselect, then refetch |
| EditItemOverlay.Overlay.Reject | src/components/items/EditItemOverlay.tsx:46 | closes the confirmation with no call |
| EditItemOverlay.Overlay.HandleEdit | src/components/items/EditItemOverlay.tsx:35-38 | hands the item to the page, then deselects |
| EditItemOverlay.Overlay.Cancel | src/components/items/EditItemOverlay.tsx:86 | only deselects |
| AuthContext.ShouldClearLoadingMeans | src/contexts/AutchContext.tsx:109-117 | the screen clears exactly while it is up and the router is on the login page or the user is logged in |
| AuthContext.LoginRequest | src/contexts/AutchContext.tsx:49-52 | the login is a POST of the JSON credentials to `/api/auth/login` with the composed headers |
| AuthContext.MeRequest | src/contexts/AutchContext.tsx:60 | the user lookup is a bodiless GET of `/api/auth/me` carrying the stored token |
| AuthContext.AccessToken | src/contexts/AutchContext.tsx:53 | the stored token is the string form of `access_token`, "undefined" when there is none, and nothing when the body is null |
| AuthContext.AuthProvider.constructor | src/contexts/AutchContext.tsx:33-36 | logged out, loading, start-up check unfinished, no user |
| AuthContext.AuthProvider.Render | src/contexts/AutchContext.tsx:107 | the API's token hook becomes the redirect to the login page |
| AuthContext.AuthProvider.GetUser | src/contexts/AutchContext.tsx:58-62 | one lookup; on success the user is the body, on failure the user is unchanged and the failure is reported |
| AuthContext.AuthProvider.HandleInitialLoad | src/contexts/AutchContext.tsx:88-101 | with a stored token: logged in, one lookup, and on success the load finishes and the login page is left for home; a failed lookup leaves it unfinished. Without a token: go to the login page, logged out, finished |
| AuthContext.AuthProvider.LoadingEffect | src/contexts/AutchContext.tsx:109-117 | loading clears exactly after the start-up check under `ShouldClearLoading`, and is never raised |
| AuthContext.AuthProvider.StoreLogin | src/contexts/AutchContext.tsx:47-56 | one login request; on a usable reply the token becomes `AccessToken(body)`; otherwise nothing is stored |
| AuthContext.AuthProvider.Login | src/contexts/AutchContext.tsx:64-81 | on login and lookup both succeeding: logged in, user set, token stored, navigated home; if either fails the session flag and user are unchanged |
| AuthContext.AuthProvider.Logout | src/contexts/AutchContext.tsx:83-86 | logged out and on the login page |
| HomePage.Home.constructor | src/pages/index.tsx:13-17 | hidden create-mode dialog with no item |
| HomePage.Home.OpenAddItemModal | src/pages/index.tsx:19-23 | create mode, no item, visible |
| HomePage.Home.SetEditingItem | src/pages/index.tsx:25-29 | edit mode, the item stored, visible |
| HomePage.Home.CloseAddItemModal | src/pages/index.tsx:31-33 | only hides the dialog; edit mode still goes with an item |
| HomePage.Home.LoggedEffect | src/pages/index.tsx:35-38 | the root list is fetched exactly when logged in |
| ApiManager.Appended | src/pages/api-manager.tsx:45 | the new entry is last and the old entries keep their order |
| ApiManager.WithoutId | src/pages/api-manager.tsx:95 | an entry survives iff it was there and its id is not the selected one; the list never grows |
| ApiManager.WithoutIdDistributes | src/pages/api-manager.tsx:95 | the filter distributes over concatenation, so surviving entries keep their order |
| ApiManager.WithoutIdIdempotent | src/pages/api-manager.tsx:95 | filtering twice is filtering once |
| ApiManager.WithoutAbsentId | src/pages/api-manager.tsx:95 | a list without the id, or any list with no selection, is unchanged |
| ApiManager.CreatedThenDeleted | src/pages/api-manager.tsx:45-95 | deleting a just-created entry's id gives the old list filtered by that id |
| ApiManager.DeletePath | src/pages/api-manager.tsx:86 | the delete path is `apis/{id}`, or `apis/undefined` with no selection |
| ApiManager.Manager.constructor | src/pages/api-manager.tsx:19-24 | closed dialogs, empty fields and list, no selection |
| ApiManager.Manager.LoadEffect | src/pages/api-manager.tsx:76-78 | the list is requested and replaced by a resolved listing |
| ApiManager.Manager.HandleCreateApi | src/pages/api-manager.tsx:28-74 | one create request; if it resolves: fields cleared, dialog closed, the entry appended and its token copied; if it rejects nothing else changes |
| ApiManager.Manager.ConfirmDeleteApi | src/pages/api-manager.tsx:80-83 | the row is selected and the dialog opens |
| ApiManager.Manager.DeleteSelected | src/pages/api-manager.tsx:85-96 | the delete is sent and, without waiting, the dialog closes and every entry with the selected id is dropped |
| ApiManager.Manager.HideDeleteApiDialog | src/pages/api-manager.tsx:112-114 | only closes the dialog |

## Left out

- Rendering, CSS styles, animations and the pixel centring arithmetic of `restartPosition` (`ItemCard.Card.CentreTimerFires` records only that the centring style is applied). These are presentation and floating-point geometry.
- Real timers, promises and interleaving. Each handler, timer fire and awaited reply is one atomic step, and the reply is a parameter. The 1 s delay before the user lookup is not modelled.
- The toast notifications of the item API context, the clipboard's access, the API page's success message, and `document.getElementById(...).reset()` on the form. These are browser or library UI.
- `handleCopy` and `handleRefreshLink` of the edit dialog. They depend on an item `token` field the item type does not declare, and on a `refreshToken` the API context never provides (`ApiContext.FetchItemIsFetchParent` states the latter).
- Element-level listener registration on the card (mousedown/pointerdown/click/touchend, capture phase). The model calls `PointerDown` and `Click` directly.
- The long-press hook's own timing and its outside-element cancelling. `ItemCard.Card.LongPress` is its callback.
- `ItemCard.Card.TimerFires` takes the card's origin as an `Option<Point>`. It is `None` when the card is unmounted. Coordinates are integers, not floating-point pixels.
- `AddItemModal.UpperAscii` upper-cases ASCII letters only. The type tags are ASCII.
- `AddItemModal.Utf8Size` counts UTF-8 bytes per Unicode scalar value. JavaScript strings holding lone surrogates are not modelled.
- `AddItemModal.Loadable` requires a non-empty first-file list (logo and payload) before an item is loaded. The source reads `[0]` of a truthy array and would throw on an empty one, so that crash path is not modelled.
- `AddItemModal.Modal.Upload` follows the intended routing (see Findings). The as-written routing is `AddItemModal.Modal.UploadAsWritten`.
- The browser's `required` check on the API-key form's name and description inputs (`src/pages/api-manager.tsx:184`, `193`) is not modelled. `ApiManager.Manager.HandleCreateApi` accepts any values, including empty ones.
- JavaScript numbers (item ids, file sizes, JSON numbers, pointer coordinates) are modelled as unbounded integers. Floating-point values, precision loss above 2^53 and `NaN` are not modelled.
- The item API context provider is not mounted by the app shell, so at run time the context's no-op defaults would be used. The model describes the provider's own behaviour. `src/pages/_app.tsx` is not part of this model.
- The item renderers, the file viewer, the login page and the app shell are not part of this model.
- Drag-and-drop targets, move commits, token-scoped read-only mode, cycle rejection and token rotation do not exist in the code, so they are not modelled.

## Findings

| source | as written | input that shows it | evidently intended | confidence | as-written member | corrected member |
|---|---|---|---|---|---|---|
| src/components/items/AddItemModal.tsx:405-421 | the file panel's upload widget uses `invoiceUploadHandler`, which calls `onUpload`, which sets the logo and its flag | in a blank create form with type "file", choose a non-empty file in the file panel: the file stays undefined, so the submit is refused with "Please select a file" | the chosen file becomes the item's file and sets the file flag, as the paste button does | not executed | AddItemModal.PayloadUploadAsWritten | AddItemModal.PayloadUploadCreates |
