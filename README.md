# nutriflow-fe admin client — a Dafny model

nutriflow-fe is a React admin client for a nutrition supply chain: suppliers
(*pemasok*), their products (*produk*), a chat room and a mock login. Its logic
is a set of small state machines and rules on top of REST calls. This project
models those rules and proves what they promise. Every server reply and every
user event is an input.

Modules, one per source file, plus four shared helpers:

- `PemasokStore` and `ProdukStore` are the two `zustand` stores. Each is a
  class whose fields are the store's fields.
  - A fetch is split into `BeginFetch` and `FinishFetch`. `BeginFetch` is the
    synchronous `set({ loading: true, error: null })` and returns the query
    parameters it would send. `FinishFetch` takes the reply.
  - A reply is `Http.Reply`:
    - `Ok(payload)`: `success` was true;
    - `Fail(message)`: a response with `success` false;
    - `Throw(message)`: an exception, with the server's message if there was one.
  - A successful add, update or delete starts the refetch with no arguments and
    returns that refetch's query.
  - `PemasokStore.BuildFormData` is the loop that fills the multipart body.
    Its loop invariant ties it to the function `FormParts`.
- `PemasokForm` and `ProdukForm` cover three things. The first is the zod
  schemas, as `Valid` predicates plus the ordered list of issues they report.
  The second is the reset effect. The third is `onSubmit`, a class method
  that calls the store.
- `PemasokPage`, `ProdukPage` and `PemasokDetailPage` are the pages.
  - Their `useState` cells are class fields.
  - The supplier page's fetch effect is keyed on its four dependencies. It
    re-runs exactly when one of them changed (`Refresh`).
  - The pure rendering rules are functions: the order of the views,
    enablement of the pagination buttons, optional sections and link strings.
- `ChatPage` is the chat room without its transport.
- `AuthStore` holds the token, the user and the storage entry. `jwtDecode`
  is a function-valued constant and `localStorage` is a `map`.
- `LoginPage` is the mock login form.
- The helpers:
  - `Wrappers`: `Option`.
  - `Decimal`: `String(n)` for integers, with its parse-back round trip.
  - `JsText`:
    - JavaScript truthiness of an optional string;
    - the `a || b` fallback;
    - `String.prototype.trim` with the ECMAScript white-space set.
  - `Http`: replies, the error a failed reply leaves, and query parameters
    with the `get` lookup; `Http.Lookup` finds a key's first value.
  - `ListViews`: the loading / error / empty / table order shared by both
    list pages.

Two points where the model follows the code rather than what a reader might
expect from it:

- **No form keeps its modal open on a failed save.** `PemasokForm.tsx` and
  `ProdukForm.tsx` say the modal closes "only on success". But the stores catch
  every failure and never rethrow, so `onClose()` always runs after an
  accepted submit. `PemasokForm.Form.Submit` and `ProdukForm.Form.Submit`
  therefore report `closed` for every valid submit.
- **Login does not test `success`.** The other stores look at
  `response.data.success` before using a reply; `useAuthStore.login` takes the
  token from every reply that resolves. `AuthStore.Store.Login` therefore
  keeps every response that resolved.

## Model

| member | source | states |
|---|---|---|
| Decimal.NatToDecimal | src/store/usePemasokStore.ts:102-103 | the decimal text of a natural number is non-empty and all digits, and has no leading zero except for 0 itself |
| Decimal.IntToDecimal | src/store/usePemasokStore.ts:102-103 | `String(n)` of an integer (a safe integer, see "Left out") starts with `-` exactly when n is negative, and has only digits after the sign |
| Decimal.ParseNatToDecimal | src/store/usePemasokStore.ts:102-103 | reading the decimal text of a natural number gives that number back |
| Decimal.ParseIntToDecimal | src/store/usePemasokStore.ts:102-103 | reading `String(n)` gives n back for every integer the model takes (unbounded; see "Left out" for JavaScript's number width) |
| Decimal.IntToDecimalInjective | src/store/useProdukStore.ts:47-49 | two integers are sent as the same parameter text exactly when they are equal |
| JsText.OrElse | src/store/usePemasokStore.ts:121 | `message \|\| fallback` is the message when it is a non-empty string and the fallback otherwise, and it is non-empty whenever the fallback is |
| JsText.TrimStart | src/pages/chat/ChatPage.tsx:22-23 | drops exactly the leading white space: a suffix whose dropped characters are white space and whose first character is not |
| JsText.TrimEnd | src/pages/chat/ChatPage.tsx:22-23 | drops exactly the trailing white space, symmetrically |
| JsText.TrimCharacterized | src/pages/chat/ChatPage.tsx:22-23 | `trim()` is the slice between the leading and trailing white space; it is empty exactly when the whole string is white space, and otherwise starts and ends with a non-space |
| JsText.TrimIsTrimStartThenEnd | src/pages/chat/ChatPage.tsx:22-23 | `trim()` equals `trimEnd()` applied after `trimStart()` |
| JsText.TrimIdempotent | src/pages/chat/ChatPage.tsx:22-23 | trimming twice is trimming once |
| Http.ErrorAfter | src/store/usePemasokStore.ts:115-125 | a non-success reply leaves its raw message as the error; an exception leaves the server's message, or the fallback when that is absent or empty, which is then always truthy |
| Http.Lookup | src/store/usePemasokStore.ts:95-105 | a key's lookup finds a value exactly when some parameter has that key |
| Http.LookupFirst | src/store/usePemasokStore.ts:95-105 | a found value belongs to the first parameter with that key: returns its index, and no earlier parameter has the key |
| Http.LookupAppend | src/store/usePemasokStore.ts:95-103 | looking a key up in appended parameters finds its first value in the earlier part before the later one |
| Http.Filter | src/store/usePemasokStore.ts:96-101 | a filter parameter is sent once, under its own key and with its value, exactly when the value is non-empty |
| PemasokStore.PemasokQuery | src/store/usePemasokStore.ts:95-103 | one parameter per non-empty filter plus two; the last two are `page` then `size`, as decimal text |
| PemasokStore.PemasokQueryLookup | src/store/usePemasokStore.ts:95-103 | `jenisPemasok` and `namaPemasok` are found, with their values, exactly when non-empty; `page` and `size` are always found as their decimal text |
| PemasokStore.PemasokQueryOrdered | src/store/usePemasokStore.ts:95-103 | keys appear in the fixed append order `jenisPemasok`, `namaPemasok`, `page`, `size`, each at most once |
| PemasokStore.BuildPemasokQuery | src/store/usePemasokStore.ts:95-103 | the step-by-step `append` calls build exactly `PemasokQuery` |
| PemasokStore.Appended | src/store/usePemasokStore.ts:152-164 | one loop iteration appends at most one part, never one named `logoFile`, only for a present value, and names it `logo` exactly for the `logoFile` or `logo` key |
| PemasokStore.BuildFormData | src/store/usePemasokStore.ts:150-165 | the `for...in` loop builds exactly `FormParts` of the entries, the specification function that appends each entry's `Appended` parts in iteration order |
| PemasokStore.FormPartsAppend | src/store/usePemasokStore.ts:151-165 | the body keeps iteration order: the parts of concatenated entries are the concatenated parts |
| PemasokStore.FormPartSource | src/store/usePemasokStore.ts:151-165 | every part of the body was appended by the iteration of some entry, whose index is returned |
| PemasokStore.FormPartSent | src/store/usePemasokStore.ts:151-165 | every part an entry's iteration appends is in the body |
| PemasokStore.FormPartsMember | src/store/usePemasokStore.ts:151-165 | a part is in the body exactly when one entry's iteration appended it |
| PemasokStore.NoLogoFilePart | src/store/usePemasokStore.ts:152-158 | the body never has a `logoFile` part, and each part comes from an entry whose value is neither null nor undefined |
| PemasokStore.LogoFileSent | src/store/usePemasokStore.ts:156-157 | a `logoFile` set to a file puts a `logo` part carrying that file in the body (a non-empty text, a `logo` part with that text) |
| PemasokStore.LogoPartFromLogoFile | src/store/usePemasokStore.ts:156-158 | when no property is literally named `logo`, a `logo` part comes from a `logoFile` entry that is set |
| PemasokStore.KeptEntry | src/store/usePemasokStore.ts:158-162 | every present entry other than `logoFile` is sent under its own name with its `String()` text |
| PemasokStore.Store.constructor | src/store/usePemasokStore.ts:79-86 | the store starts with an empty list, no selection, not loading, no error, page 0, size 10 and zero totals |
| PemasokStore.Store.BeginFetch | src/store/usePemasokStore.ts:87-103 | a fetch first sets loading and clears the error, and nothing else; missing arguments default to '', '', 0 and 10 in the query |
| PemasokStore.Store.FinishFetch | src/store/usePemasokStore.ts:105-125 | success replaces the list and all four pagination fields from the payload; a failure leaves them unchanged and sets the error as `ErrorAfter` with 'Failed to fetch pemasok data'; loading ends false either way |
| PemasokStore.Store.FetchPemasok | src/store/usePemasokStore.ts:87-126 | a whole fetch: the query of `BeginFetch`, then the state of `FinishFetch` |
| PemasokStore.Store.FetchPemasokById | src/store/usePemasokStore.ts:127-146 | the selection is set exactly on success and is otherwise cleared; the error follows the reply with 'Failed to fetch pemasok details'; loading ends false |
| PemasokStore.Store.Settle | src/store/usePemasokStore.ts:172-185 | a successful mutation starts the default refetch (still loading, no error); a failed one sets the error with the given fallback, ends loading, and refetches nothing |
| PemasokStore.Store.AddPemasok | src/store/usePemasokStore.ts:147-186 | sends `FormParts` of the data; success starts the default refetch, failure sets 'Failed to add pemasok' as fallback |
| PemasokStore.Store.UpdatePemasok | src/store/usePemasokStore.ts:187-226 | the same as add, with 'Failed to update pemasok' |
| PemasokStore.Store.DeletePemasok | src/store/usePemasokStore.ts:227-245 | success starts the default refetch; failure sets the error with 'Failed to delete pemasok' |
| ProdukForm.ParseJenis | src/components/forms/ProdukForm.tsx:13-15 | a text read as a category is that category's name |
| ProdukForm.ParseJenisName | src/components/forms/ProdukForm.tsx:13-15 | every category's name reads back as that category |
| ProdukStore.IdParam | src/store/useProdukStore.ts:47-49 | `pemasokId` is sent once, as decimal text, exactly when truthy (0 and a missing id are left out) |
| ProdukStore.ProdukQuery | src/store/useProdukStore.ts:43-52 | one parameter per truthy filter |
| ProdukStore.ProdukQueryLookup | src/store/useProdukStore.ts:43-52 | each of `jenisProduk`, `pemasokId` and `namaProduk` is found, with its value, exactly when truthy; `page` and `size` are never sent |
| ProdukStore.ProdukQueryOrdered | src/store/useProdukStore.ts:43-52 | keys appear in the append order `jenisProduk`, `pemasokId`, `namaProduk`, each at most once |
| ProdukStore.BuildProdukQuery | src/store/useProdukStore.ts:43-52 | the step-by-step `append` calls build exactly `ProdukQuery` |
| ProdukStore.Store.constructor | src/store/useProdukStore.ts:37-39 | the store starts with an empty list, not loading and no error |
| ProdukStore.Store.BeginFetch | src/store/useProdukStore.ts:40-52 | a fetch first sets loading and clears the error; missing filters default to '' |
| ProdukStore.Store.FinishFetch | src/store/useProdukStore.ts:54-67 | success replaces the list; a failure keeps it and sets the error with 'Failed to fetch produk data'; loading ends false either way |
| ProdukStore.Store.FetchProduk | src/store/useProdukStore.ts:40-68 | a whole fetch: the query of `BeginFetch`, then the state of `FinishFetch` |
| ProdukStore.Store.Settle | src/store/useProdukStore.ts:73-86 | a successful mutation starts the unfiltered refetch; a failed one sets the error with the given fallback and ends loading |
| ProdukStore.Store.AddProduk | src/store/useProdukStore.ts:69-87 | success refetches with no filters; failure falls back to 'Failed to add produk' |
| ProdukStore.Store.UpdateProduk | src/store/useProdukStore.ts:88-106 | success refetches with no filters; failure falls back to 'Failed to update produk' |
| ProdukStore.Store.DeleteProduk | src/store/useProdukStore.ts:107-125 | success refetches with no filters; failure falls back to 'Failed to delete produk' |
| ListViews.ListScreenFor | src/pages/admin/ProdukPage.tsx:56-104 | the spinner exactly while loading; otherwise the error banner with the message exactly when the error is truthy; otherwise the empty notice exactly for an empty list, and the table for a non-empty one (`ProdukPage.Screen` and `PemasokPage.Screen` apply it to the product and supplier stores) |
| PemasokForm.FieldIssuesAgree | src/components/forms/PemasokForm.tsx:8-19 | a field reports issues exactly when its rule rejects it, and they name that field |
| PemasokForm.IssuesEmptyIffValid | src/components/forms/PemasokForm.tsx:8-19 | `Issues`, the schema's issues in field order, is empty exactly when `Valid` holds: name and address are non-empty, NIK has 1 to 16 characters and telephone 1 to 15 |
| PemasokForm.IssuesNameRejectedFields | src/components/forms/PemasokForm.tsx:8-19 | a field is named by some issue exactly when that field is rejected |
| PemasokForm.OverLongRejected | src/components/forms/PemasokForm.tsx:13-18 | a NIK over 16 or a telephone over 15 characters is always rejected, with its "at most" message |
| PemasokForm.NewFormRejected | src/components/forms/PemasokForm.tsx:53-58 | the blank new form is rejected with the four "is required" messages in field order |
| PemasokForm.SubmittedBody | src/components/forms/PemasokForm.tsx:62-68 | a submitted form's `Entries` become exactly the four text parts in schema order, with no logo |
| PemasokForm.RequestFor | src/components/forms/PemasokForm.tsx:62-70 | a request is sent exactly for accepted values; its body is the multipart body of the values; it is an update, with the record's id, exactly when a record is being edited |
| PemasokForm.Form.SetValues | src/components/forms/PemasokForm.tsx:95-150 | typing into the registered inputs changes only the values |
| PemasokForm.Form.constructor | src/components/forms/PemasokForm.tsx:44-60 | the mounted form holds `ResetValues`: the edited record's four fields, or four empty strings |
| PemasokForm.Form.ReceiveEditing | src/components/forms/PemasokForm.tsx:44-60 | the reset reloads the values exactly when the edited record changed |
| PemasokForm.Form.Submit | src/components/forms/PemasokForm.tsx:62-70 | rejected values only show their issues and touch no store; accepted values are sent to update with the record's id when editing, otherwise to add, and the modal is asked to close |
| ProdukForm.FieldIssuesAgree | src/components/forms/ProdukForm.tsx:9-17 | a field reports issues exactly when its rule rejects it, and they name that field |
| ProdukForm.IssuesEmptyIffValid | src/components/forms/ProdukForm.tsx:9-17 | `Issues` is empty exactly when `Valid` holds: the name is non-empty, the price is at least 0, the stock is an integer at least 0, the category is one of the three, and the supplier id is an integer at least 1 |
| ProdukForm.IssuesNameRejectedFields | src/components/forms/ProdukForm.tsx:9-17 | a field is named by some issue exactly when that field is rejected |
| ProdukForm.Parsed | src/components/forms/ProdukForm.tsx:9-17 | accepted values become a product input with the same name and price, a non-negative integer stock, a supplier id of at least 1 and the named category |
| ProdukForm.NewFormRejected | src/components/forms/ProdukForm.tsx:53-60 | the default form ('', 0, 0, 'BahanPokok', 0) is rejected for exactly the empty name and the missing supplier |
| ProdukForm.EditRoundTrip | src/components/forms/ProdukForm.tsx:45-52 | a product loaded into the form is accepted exactly when its name is non-empty, price and stock non-negative and supplier id at least 1, and then submits its own five fields |
| ProdukForm.Form.constructor | src/components/forms/ProdukForm.tsx:44-62 | the mounted form holds `ResetValues`: the product's five fields, or the defaults |
| ProdukForm.RequestFor | src/components/forms/ProdukForm.tsx:64-76 | a request is sent exactly for accepted values; it carries the parsed product; it is an update, with the product's id, exactly when a product is being edited |
| ProdukForm.Form.SetValues | src/components/forms/ProdukForm.tsx:97-177 | typing into the registered inputs changes only the values |
| ProdukForm.Form.ReceiveEditing | src/components/forms/ProdukForm.tsx:44-62 | the reset reloads the values exactly when the edited product changed |
| ProdukForm.Form.Submit | src/components/forms/ProdukForm.tsx:64-76 | rejected values only show their issues; accepted ones are sent to update with the product's id when editing, otherwise to add, and the modal is asked to close |
| PemasokPage.Refetch | src/pages/admin/PemasokPage.tsx:44-57 | the effect refetches exactly when a dependency changed, with the new filters, page and size in the query |
| PemasokPage.PaginationShownWhen | src/pages/admin/PemasokPage.tsx:110-316 | the pagination bar is on screen exactly when nothing is loading, the error is not truthy, the list is non-empty and there is at least one page (the bar sits in the table branch after the two early returns) |
| PemasokPage.DisplayedPageInRange | src/pages/admin/PemasokPage.tsx:316-352 | on an existing page the pagination bar is shown exactly when the table is, the label `DisplayedPage` lies in 1..totalPages, Previous is disabled exactly on label 1 and Next exactly on label totalPages |
| PemasokPage.NavigationAgrees | src/pages/admin/PemasokPage.tsx:318-352 | on a page in range, Previous is enabled (`PrevDisabled` false) exactly when going back passes the guard `PageAccepted` of `handlePageChange` (lines 64-68), and Next (`NextDisabled`) exactly when going forward does |
| PemasokPage.Page.constructor | src/pages/admin/PemasokPage.tsx:28-42 | dialogs closed, no editing or delete target, empty filters, page and size from the store |
| PemasokPage.Page.Mount | src/pages/admin/PemasokPage.tsx:44-57 | the first fetch uses the current filters, page and size, and leaves the store `Fetching` (loading, no error) |
| PemasokPage.Page.Refresh | src/pages/admin/PemasokPage.tsx:44-57 | a fetch starts exactly when the dependencies changed, and then with their new values |
| PemasokPage.Page.SyncFromStore | src/pages/admin/PemasokPage.tsx:59-62 | page and size are copied from the store exactly when the store's values changed |
| PemasokPage.Page.HandlePageChange | src/pages/admin/PemasokPage.tsx:64-68 | the page becomes the new page exactly when it lies in [0, totalPages), and stays otherwise |
| PemasokPage.Page.HandleItemsPerPageChange | src/pages/admin/PemasokPage.tsx:70-75 | the new size is taken and the page always goes back to 0 |
| PemasokPage.Page.SetSearchInput | src/pages/admin/PemasokPage.tsx:168-169 | typing changes only the uncommitted search text, so no fetch starts |
| PemasokPage.Page.HandleSearchKeyDown | src/pages/admin/PemasokPage.tsx:77-81 | only Enter copies the search text into the name filter that drives fetching |
| PemasokPage.Page.SetFilterJenis | src/pages/admin/PemasokPage.tsx:146-151 | the category filter is set and the effect refetches when it changed |
| PemasokPage.Page.OpenModal | src/pages/admin/PemasokPage.tsx:83-86 | edits the given record, or none, and opens the modal |
| PemasokPage.Page.CloseModal | src/pages/admin/PemasokPage.tsx:88-91 | closes the modal and clears the edited record |
| PemasokPage.Page.SubmitForm | src/pages/admin/PemasokPage.tsx:360-364 | the form is the one the page passes `editingPemasok`; it shows `Issues` of its values and sends `RequestFor` the values and the edited record; an accepted form closes the modal, clears the edited record and leaves the store loading exactly on success, with the save's error otherwise; a rejected one leaves modal, record and store as they were |
| PemasokPage.Page.HandleDeleteClick | src/pages/admin/PemasokPage.tsx:93-96 | records the id and opens the confirmation |
| PemasokPage.Page.HandleConfirmDelete | src/pages/admin/PemasokPage.tsx:98-104 | deletes only when an id is recorded, then clears it and closes; the store is then loading exactly on success, with no error and the default refetch, and otherwise holds 'Failed to delete pemasok' as fallback; with no id, the id stays unset, the dialog and the store are unchanged and nothing is refetched |
| PemasokPage.Page.HandleCancelDelete | src/pages/admin/PemasokPage.tsx:106-109 | clears the id and closes without deleting |
| ProdukPage.Page.constructor | src/pages/admin/ProdukPage.tsx:14-17 | dialogs closed, no selected product, no delete target |
| ProdukPage.Page.Mount | src/pages/admin/ProdukPage.tsx:23-26 | both stores start fetching: products with no filters, suppliers with page 0 and size 10 |
| ProdukPage.Page.OpenModal | src/pages/admin/ProdukPage.tsx:28-31 | selects the given product, or none, and opens the modal |
| ProdukPage.Page.CloseModal | src/pages/admin/ProdukPage.tsx:33-36 | closes the modal and clears the selection |
| ProdukPage.Page.SubmitForm | src/pages/admin/ProdukPage.tsx:173-178 | the form is the one the page passes `selectedProduk`; it shows `Issues` of its values and sends `RequestFor` the values and the selection; an accepted form closes the modal, clears the selection and leaves the store loading exactly on success, with the save's error otherwise; a rejected one leaves modal, selection and store as they were |
| ProdukPage.Page.HandleDeleteClick | src/pages/admin/ProdukPage.tsx:38-41 | records the id and opens the confirmation |
| ProdukPage.Page.HandleConfirmDelete | src/pages/admin/ProdukPage.tsx:43-49 | deletes only when an id is recorded, then clears it and closes; the store is then loading exactly on success, with no error and the unfiltered refetch, and otherwise holds 'Failed to delete produk' as fallback; with no id, the id stays unset, the dialog and the store are unchanged and nothing is refetched |
| ProdukPage.Page.HandleCancelDelete | src/pages/admin/ProdukPage.tsx:51-54 | clears the id and closes without deleting |
| PemasokDetailPage.FetchOnRoute | src/pages/admin/PemasokDetailPage.tsx:12-16 | the record is fetched exactly when the route id is truthy; otherwise the store is untouched |
| PemasokDetailPage.ScreenFor | src/pages/admin/PemasokDetailPage.tsx:18-52 | loading first, then a truthy error with its message, then "not found" for no selection, otherwise the selected record (`PemasokDetailPage.Screen` applies it to the store) |
| PemasokDetailPage.LogoSection | src/pages/admin/PemasokDetailPage.tsx:99-108 | the logo is shown, with `logoUrl` as its source, exactly when `logoUrl` is truthy |
| PemasokDetailPage.MapSection | src/pages/admin/PemasokDetailPage.tsx:118-134 | the map is shown exactly when both coordinates are present and non-zero, with the fixed Google Maps prefix and `&output=embed` suffix |
| PemasokDetailPage.MapQueryLatitudeFirst | src/pages/admin/PemasokDetailPage.tsx:130 | the map query is the latitude, a comma, then the longitude: up to its first comma it reads as the latitude |
| PemasokDetailPage.WhatsAppUrl | src/pages/admin/PemasokDetailPage.tsx:138 | the link is `https://wa.me/` followed by the telephone number as stored |
| PemasokDetailPage.WhatsAppUrlInjective | src/pages/admin/PemasokDetailPage.tsx:138 | different numbers give different links |
| ChatPage.Compose | src/pages/chat/ChatPage.tsx:77-86 | the message carries the user and the input; it is PRIVATE, with the recipient and to `/app/chat.privateMessage/<recipient>`, exactly when a recipient is given, and CHAT to `/app/chat.sendMessage` otherwise |
| ChatPage.RecipientOf | src/pages/chat/ChatPage.tsx:84-86 | a recipient read from a destination is what follows the private prefix |
| ChatPage.DestinationAgrees | src/pages/chat/ChatPage.tsx:77-86 | the destination names the message's recipient, and a message is private exactly when its destination is |
| ChatPage.SendThenReceive | src/pages/chat/ChatPage.tsx:41-132 | when the room sends and that message arrives unchanged on the subscription, it is appended after the unchanged earlier log, drawn as the user's own (`IsOwn`) and labelled `PRIVATE` or `CHAT` as the recipient decided; when nothing is sent the log is unchanged |
| ChatPage.TypeNameInjective | src/pages/chat/ChatPage.tsx:8 | the four message types have four different wire names |
| ChatPage.Room.SetTempUsername | src/pages/chat/ChatPage.tsx:105 | typing the name changes only the pending name |
| ChatPage.Room.SetMessageInput | src/pages/chat/ChatPage.tsx:148 | typing a message changes only the message input |
| ChatPage.Room.SetRecipient | src/pages/chat/ChatPage.tsx:140 | typing a recipient changes only the recipient |
| ChatPage.Room.constructor | src/pages/chat/ChatPage.tsx:13-19 | no client, an empty log, empty inputs, not connected |
| ChatPage.Room.HandleJoinChat | src/pages/chat/ChatPage.tsx:21-26 | a name that is not blank becomes the trimmed user name and connects, so the connection effect will run (`ShouldConnect`); a blank one changes nothing |
| ChatPage.Room.OnConnected | src/pages/chat/ChatPage.tsx:29-57 | runs only when `ShouldConnect`; keeps the client and sends `JoinMessage` of the user to `/app/chat.addUser` |
| ChatPage.Room.OnMessage | src/pages/chat/ChatPage.tsx:41-50 | an incoming message is appended; the earlier log is unchanged |
| ChatPage.Room.OnConnectError | src/pages/chat/ChatPage.tsx:59-63 | back to disconnected with no client |
| ChatPage.Room.SendMessage | src/pages/chat/ChatPage.tsx:75-92 | sends exactly when the client is connected and the input non-empty, the message `Compose` builds, and then clears input and recipient; otherwise nothing changes |
| AuthStore.StoredToken | src/store/useAuthStore.ts:14 | the stored token is read exactly when the entry exists and is non-empty |
| AuthStore.StoredTokenAfterSetToken | src/store/useAuthStore.ts:18-26 | after `setToken(t)` the storage (`StorageAfterSetToken`) reads back `t` when truthy and no token otherwise |
| AuthStore.SetTokenKeepsOtherKeys | src/store/useAuthStore.ts:18-26 | `setToken` changes no other storage entry |
| AuthStore.Store.constructor | src/store/useAuthStore.ts:14-17 | the token is the stored one, or none, and the user is its decoding exactly when there is one |
| AuthStore.Store.SetToken | src/store/useAuthStore.ts:18-26 | a truthy token is stored, kept and decoded; anything else is removed and both token and user become null; the invariants `Valid` (token and user paired, the user the token's decoding) and `Synced` (the storage reads back the token) are kept |
| AuthStore.Store.Logout | src/store/useAuthStore.ts:27-30 | the same new state as `setToken(null)` |
| AuthStore.Store.Login | src/store/useAuthStore.ts:31-44 | a resolved login sets the token, its decoding and the storage entry; a failed one is rethrown and changes nothing; the pairing and storage invariants are kept |
| LoginPage.SubmitOutcome | src/pages/auth/LoginPage.tsx:17-28 | navigates to `/admin` exactly for 'admin@example.com' with 'password', and otherwise alerts 'Invalid credentials' |
| LoginPage.WrongPasswordRejected | src/pages/auth/LoginPage.tsx:20-26 | any other password is turned away whatever the email |
| LoginPage.Form.constructor | src/pages/auth/LoginPage.tsx:8-10 | password hidden, pre-filled with the demo credentials, which are accepted |
| LoginPage.Form.TogglePasswordVisibility | src/pages/auth/LoginPage.tsx:13-15 | flips the visibility flag |
| LoginPage.Form.SetEmail | src/pages/auth/LoginPage.tsx:56 | typing the email changes only the email |
| LoginPage.Form.SetPassword | src/pages/auth/LoginPage.tsx:73 | typing the password changes only the password |
| LoginPage.Form.HandleSubmit | src/pages/auth/LoginPage.tsx:17-28 | the outcome is `SubmitOutcome` of the current fields |
| LoginPage.ToggleTwice | src/pages/auth/LoginPage.tsx:13-15 | toggling twice restores the flag |
| LoginPage.SubmitUntouched | src/pages/auth/LoginPage.tsx:8-23 | submitting the untouched page navigates to `/admin` |

## Left out

- HTTP and toasts: each axios call is an input reply, and toasts are notifications with no state.
- Concurrency: async interleavings, racing fetches and the fire-and-forget refetch are not modelled. A mutation's refetch is only begun; its completion is a separate `FinishFetch`.
- The chat transport: SockJS, STOMP subscriptions, `JSON.parse`/`JSON.stringify` and the disconnect cleanup. The client is only a `connected` flag, and an outgoing message is a returned value.
- `jwtDecode` failure: decoding is a total function, so a malformed token that would make the real store throw is not modelled.
- `localStorage` is a `map<string, string>`. Its persistence across reloads is only the constructor reading it.
- Floating point: prices and coordinates are `real`, `.toFixed` on the list page is not modelled, and JavaScript's number-to-text conversion for coordinates is the parameter `show`.
- `z.coerce.number()`: the product form's number fields arrive already coerced. NaN, and the text-to-number rules, are not modelled.
- Non-file form values arrive as their `String()` text (`Text`). How JavaScript prints booleans or numbers is not modelled.
- `FormParts` follows the order of the entry list. JavaScript's `for...in` puts integer-like keys first, and that ordering is not modelled.
- Integer width: page, size, ids and stock are unbounded integers. JavaScript numbers are exact only up to 2^53, and `String(n)` prints 1e21 and above in exponent form (`"1e+21"`); neither is modelled, so `Decimal.IntToDecimal` matches `String(n)` only for safe integers.
- String length: zod's `min`/`max` count UTF-16 code units, while the model counts characters.
- React effects compare dependencies by identity; the model compares structurally (`ReceiveEditing`, `Refresh`).
- ChatPage.Room.HandleJoinChat: the contract does not restate that the new user name has no surrounding white space; `JsText.TrimCharacterized` states that of `JsText.Trim`.
- The dashboard, landing, layout, navigation, routing and not-found files are presentation only.
- The QR code and the map iframe are foreign components; only their inputs (the NIK and the URL) are in scope.
