# Admin files page: a Dafny model

This project models the logic of the catalogue's admin file manager
(`app/admin/files/page.tsx`). The page lets an administrator unlock it with a
shared password, browse folders through a `dir` query parameter, follow a
breadcrumb trail, filter folders by name, create folders, upload images and
delete images or whole folders against a files backend.

The modules follow the parts of the page:

- `Wrappers`: `Option`, for absent JSON fields, query parameters and environment values.
- `JsStrings`: the JavaScript string operations the page uses, as functions over `seq<char>`: `||` on
  optional strings, `startsWith`, `includes`, `toLowerCase` (ASCII), `trim`
  (the exact ECMAScript whitespace set), `split`/`join` on one character, and
  the decimal rendering of a status code. They come with their partners: the
  split/join round trips, `includes` against an index-based definition, and
  parsing the decimal text back.
- `Directory`: the `files/` prefix stripping, the parent directory, and the
  breadcrumb trail. The trail is built by a method with the source's loop and
  proved against a specification function. The parent directory has a
  declarative definition ("everything before the last `/`"), and a lemma
  proves that the split, pop and join of `navigateUp` computes it.
- `Listing`: the listing response, the order-preserving folder filter, and
  the three-way choice of what the listing card shows.
- `FilesPage`: class `Page`, whose fields are the page's `useState` hooks. Its
  methods are the event handlers. The page's effects on the outside world go
  into three logs:
  - `requests`: the backend requests sent. A reload is one `ListFiles` entry.
  - `navigations`: the directories handed to the router.
  - `notices`: the toasts shown.

  Backend responses are method parameters: `Ok`, a rejection carrying the
  body's `message`/`error` fields, or a thrown error. `window.confirm` is a
  boolean parameter. `Page.Valid()` states three invariants, which every
  handler preserves. The last two hold only because each handler is one
  atomic step (see "## Left out"):
  - no request is sent before the password is accepted;
  - no folder deletion is left half-way between events;
  - the success phase of the delete dialog happens only inside the open dialog of a chosen folder.

  The file ends with scenario methods. Each one drives a `Page` through one of
  these situations and asserts the state that results:
  - deleting a folder and closing the dialog;
  - a wrong password;
  - a blank folder name;
  - empty and multi-file uploads;
  - clicking a folder tile and going up.

How the code behaves at points where a reader might expect otherwise:

- The create-folder handler does not check the name. Only the "Criar Pasta"
  button is disabled for a blank name (page.tsx:583). The model therefore
  keeps `HandleCreateFolder` unchecked and puts the gate in `PressCreateFolder`.
- The `files/` prefix is stripped only for the listing and the upload
  (page.tsx:99, 238). Create-folder and both deletes send `currentDir` as it
  is (page.tsx:153, 192, 287).
- Clicking a folder tile navigates to the folder's bare name, not to a path
  below the current directory (page.tsx:521).
- The delete dialog's "in progress" phase exists only while the request is in
  flight. Each handler is modelled as one atomic step, so `isDeleting` is
  false between events, and `Valid()` says so.

- An `Error` thrown with an empty message while loading sets the error to
  the empty string (page.tsx:112). The empty string is falsy, so the listing
  card stays visible (page.tsx:472). `Page.LoadFilesCompleted` therefore
  promises a hidden card only for a non-2xx response, whose error text
  starts with "Erro ao carregar arquivos: ".

The properties are proved by the Dafny verifier.

## Model

| member | source | states |
|---|---|---|
| `JsStrings.Or` | app/admin/files/page.tsx:164 | JS `a \|\| b` on an optional string: an absent or empty `a` falls through to `b`; an empty result means `b` was empty |
| `JsStrings.IncludesIffOccurs` | app/admin/files/page.tsx:277 | the left-to-right `includes` search succeeds exactly when the substring occurs at some index |
| `JsStrings.ToLower` | app/admin/files/page.tsx:276-277 | lower-casing keeps the length and maps every character through the ASCII lower-case mapping |
| `JsStrings.TrimStart` | app/admin/files/page.tsx:487 | the result is a suffix of the input, everything dropped is whitespace, and it does not start with whitespace |
| `JsStrings.TrimEnd` | app/admin/files/page.tsx:487 | the result is a prefix of the input, everything dropped is whitespace, and it does not end with whitespace |
| `JsStrings.Trim` | app/admin/files/page.tsx:583 | the trimmed string is empty iff the input is all whitespace; otherwise it neither starts nor ends with whitespace; it occurs in the input with only whitespace before and after it |
| `JsStrings.Split` | app/admin/files/page.tsx:125 | `split` always yields at least one part, and no part contains the separator |
| `JsStrings.JoinSplit` | app/admin/files/page.tsx:125-127 | joining the parts of a split with the same separator gives the string back |
| `JsStrings.SplitJoin` | app/admin/files/page.tsx:125-127 | splitting a join of separator-free parts gives the parts back |
| `JsStrings.SplitSingle` | app/admin/files/page.tsx:125 | a split yields a single part iff the separator does not occur |
| `JsStrings.NatToString` | app/admin/files/page.tsx:105 | a status renders as a non-empty string of decimal digits without a leading zero |
| `JsStrings.DecimalRoundTrip` | app/admin/files/page.tsx:105 | reading the rendered digits back gives the same number |
| `Directory.CleanDir` | app/admin/files/page.tsx:99 | a directory starting with `files/` is that prefix followed by the result; any other directory is returned unchanged |
| `Directory.CleanDirStripsOnce` | app/admin/files/page.tsx:238 | only one prefix is removed: `files/files/x` becomes `files/x`, so stripping is not idempotent |
| `Directory.LastIndexOf` | app/admin/files/page.tsx:126 | the index of the last occurrence of a character, or -1 exactly when it does not occur |
| `Directory.ParentDir` | app/admin/files/page.tsx:122-129 | the parent is a prefix of the directory; with a `/`, it ends just before the last `/`; without one, it is "" |
| `Directory.ParentUnique` | app/admin/files/page.tsx:122-129 | at most one string satisfies the parent property of a directory |
| `Directory.SplitPopJoinIsParent` | app/admin/files/page.tsx:125-127 | splitting on `/`, popping the last part and joining the rest yields the parent directory |
| `Directory.ParentDirExamples` | app/admin/files/page.tsx:122-129 | going up from "a/b" gives "a", from "a" gives the root, from "a/b/" gives "a/b" |
| `Directory.NonEmpty` | app/admin/files/page.tsx:139 | every kept part is non-empty and comes from the input; each non-empty string is kept as often as it occurs, and the empty string never |
| `Directory.NonEmptySnoc` | app/admin/files/page.tsx:138-139 | one more part at the end is appended to the kept parts when it is non-empty and dropped otherwise, so the kept parts stay in input order |
| `Directory.Segments` | app/admin/files/page.tsx:134-139 | every segment of a directory is non-empty and free of `/` |
| `Directory.Trail` | app/admin/files/page.tsx:135-142 | the trail has one entry more than there are segments |
| `Directory.TrailAt` | app/admin/files/page.tsx:135-142 | entry 0 is the root crumb `Files`/""; entry i holds segment i-1 and the first i segments joined by `/` |
| `Directory.BreadcrumbStep` | app/admin/files/page.tsx:138-141 | an empty part adds no crumb; a non-empty part adds one crumb whose path is the running path + "/" + part, or the part alone when the running path is empty |
| `Directory.TrailChain` | app/admin/files/page.tsx:140 | the first segment's path is its name; each later path is the previous path + "/" + its name |
| `Directory.TrailOfNormalized` | app/admin/files/page.tsx:131-145 | for a directory without empty segments, the last crumb's path is the directory itself |
| `Directory.GetBreadcrumbs` | app/admin/files/page.tsx:131-145 | the loop returns the root crumb followed by one crumb per non-empty segment (count 1 + segments, "" gives only the root); names are non-empty and `/`-free; paths accumulate with `/`; a normalized directory ends at itself |
| `Listing.FilterByName` | app/admin/files/page.tsx:275-278 | the kept folders form an order-preserving subsequence; each folder is kept with its full multiplicity exactly when its lower-cased name includes the lower-cased query, otherwise dropped |
| `Listing.FilteredCategories` | app/admin/files/page.tsx:272-279 | with no listing the result is empty; otherwise it is an order-preserving subsequence holding exactly the matching folders, each as often as in the listing |
| `Listing.EmptyQueryKeepsAll` | app/admin/files/page.tsx:276-277 | an empty search keeps every folder in the backend's order |
| `Listing.FilterIdempotent` | app/admin/files/page.tsx:275-278 | filtering the filtered list again changes nothing |
| `Listing.ShoesExample` | app/admin/files/page.tsx:277 | the folder "Shoes" is kept by "sho" and removed by "xyz" |
| `Listing.SelectView` | app/admin/files/page.tsx:472-512 | nothing shows unless there is a listing, nothing is loading and there is no error; the image grid shows iff the listing has no folders, has images, and the trimmed directory is not empty; "Pasta vazia" shows for no folders otherwise; the folder grid of the filtered folders shows whenever there are folders |
| `Listing.NoImageGridAtRoot` | app/admin/files/page.tsx:487 | at the root, or at a whitespace-only directory, a listing without folders shows "Pasta vazia", never the image grid |
| `Listing.RootVersusLeafExample` | app/admin/files/page.tsx:487-510 | the same one-image listing shows "Pasta vazia" at "" and the image grid at "cat1" |
| `Listing.FolderGridMayBeEmpty` | app/admin/files/page.tsx:509-513 | a listing with folders shows the folder grid even when the search keeps none |
| `Listing.EmptyErrorShowsListing` | app/admin/files/page.tsx:472 | an empty error string is falsy and does not hide the listing |
| `FilesPage.CaughtText` | app/admin/files/page.tsx:178 | an Error's message is shown even when empty; only a non-Error value falls back |
| `FilesPage.RejectionText` | app/admin/files/page.tsx:163-164 | for a rejection the text is `message`, else `error`, else the fallback, with empty strings falling through; it is non-empty when the fallback is; for a thrown error it is the caught text |
| `FilesPage.UploadFailureText` | app/admin/files/page.tsx:247-249 | for a rejected upload the text is `message`, else the fallback; the `error` field is never used |
| `FilesPage.LoadErrorText` | app/admin/files/page.tsx:103-112 | the listing error starts with "Erro ao carregar arquivos: " followed by the body's message, or by digits that read back as the status; a thrown error gives its message or "Erro desconhecido" |
| `FilesPage.Page.constructor` | app/admin/files/page.tsx:56-77 | initial state: loading, locked, no listing, empty fields, empty logs; the password is the environment value or "admin123"; the directory is the `dir` parameter or "" |
| `FilesPage.Page.SetPassword` | app/admin/files/page.tsx:331 | the password field holds what was typed |
| `FilesPage.Page.Login` | app/admin/files/page.tsx:85-91 | the page unlocks iff the password matches; unlocking issues exactly one listing request for the stripped directory; a wrong password changes nothing |
| `FilesPage.Page.LoadFiles` | app/admin/files/page.tsx:93-101 | loading is set, the error is cleared, and one listing request for `CleanDir(currentDir)` is appended; while it is pending the listing card is hidden |
| `FilesPage.Page.LoadFilesCompleted` | app/admin/files/page.tsx:103-115 | loading ends; a listing replaces the files; a failure keeps the old files and records the load error text; after a listing the card is shown unless an earlier error is still set, and after a non-2xx response it is hidden |
| `FilesPage.Page.SetSearchQuery` | app/admin/files/page.tsx:418 | the search field holds what was typed |
| `FilesPage.Page.RouteChanged` | app/admin/files/page.tsx:77-83 | the directory becomes the `dir` parameter or ""; the listing reloads exactly once iff the page is unlocked and the directory changed |
| `FilesPage.Page.NavigateTo` | app/admin/files/page.tsx:118-120 | the path is appended to the navigation log |
| `FilesPage.Page.NavigateUp` | app/admin/files/page.tsx:122-129 | at the root nothing is navigated; otherwise exactly the parent directory is navigated to |
| `FilesPage.Page.OpenFolder` | app/admin/files/page.tsx:519-521 | clicking a folder navigates to its bare name |
| `FilesPage.Page.OpenCrumb` | app/admin/files/page.tsx:395 | clicking a breadcrumb navigates to its path |
| `FilesPage.Page.SetShowCreateFolder` | app/admin/files/page.tsx:363 | the create-folder dialog opens or closes |
| `FilesPage.Page.SetNewFolderName` | app/admin/files/page.tsx:575 | the folder-name field holds what was typed |
| `FilesPage.Page.HandleCreateFolder` | app/admin/files/page.tsx:147-184 | one create request with the unstripped directory and the name as typed; success closes the dialog, clears the name, adds a success toast and reloads once; failure keeps the dialog, the name and the error, and toasts the rejection text; loading ends either way |
| `FilesPage.Page.PressCreateFolder` | app/admin/files/page.tsx:583 | with a blank name the button does nothing at all; otherwise the whole effect of `handleCreateFolder`: the create request, then on success the toast, the closed dialog, the cleared name and error and one reload, and on failure the rejection toast with the dialog, the name and the error kept; loading ends either way |
| `FilesPage.Page.HandleFileUpload` | app/admin/files/page.tsx:229-270 | an empty selection changes nothing; otherwise only the first file is sent to `CleanDir(currentDir)`, success toasts and reloads once, failure toasts the upload text; loading is false and the input is "" afterwards |
| `FilesPage.Page.HandleDeleteImage` | app/admin/files/page.tsx:282-311 | without confirmation nothing changes; otherwise one delete request for the image name in the unstripped directory; success toasts and reloads once, failure toasts the rejection text; loading ends |
| `FilesPage.Page.AskDeleteFolder` | app/admin/files/page.tsx:543-547 | the folder is chosen and the delete dialog opens |
| `FilesPage.Page.HandleDeleteItem` | app/admin/files/page.tsx:187-220 | success: success phase, dialog still open on the same folder, delete then exactly one reload; failure: dialog closed, choice cleared, no reload, rejection text toasted; `isDeleting` false either way; after a success the listing card is hidden while the reload runs |
| `FilesPage.Page.HandleCloseDeleteModal` | app/admin/files/page.tsx:222-227 | all four dialog fields are reset |

## Left out

- Rendering. The JSX, the card titles and the shadcn components are not
  modelled; only the choice of listing view is (`SelectView`). The same goes
  for the visibility of the "Pasta Superior" button and for the toast
  component itself, whose title and description are recorded in `notices`.
- Browser and network APIs. `fetch`, `FormData`, `URLSearchParams` and
  `encodeURIComponent` become the logged `Request` values and the
  outcome parameters. Query encoding and decoding are assumed to be inverse.
- JSON fields that are not strings are not modelled. A body field is an `Option<string>`, where `None` means absent or null.
- `router.push` becomes the `navigations` log. The arrival of the new address
  is the separate `RouteChanged` event. The "Voltar ao Painel" navigation to
  another page is not modelled.
- Async behaviour. Each handler is one atomic step. `loadFiles`, which the
  handlers start without awaiting, is split into its synchronous start
  (`LoadFiles`) and its completion (`LoadFilesCompleted`). Overlapping loads,
  the race between them, and a completion without a matching request are not
  modelled.
- Closing the delete dialog while a folder delete is in flight is not
  modelled. "Cancelar" (page.tsx:637) and the dialog's `onOpenChange`
  (page.tsx:591) stay enabled during the delete; only "Excluir" is disabled
  (page.tsx:643). If the dialog is closed while the request awaits
  (page.tsx:195) and the request then succeeds, page.tsx:202 sets
  `deleteSuccess` with the dialog closed and no folder chosen. The next trash
  click (page.tsx:545-546) then opens the dialog already in its "Exclusão
  Concluída" phase. In the source the third conjunct of `Page.Valid()` fails
  under this interleaving; in the model it holds because `HandleDeleteItem` is
  one atomic step.
- `alert` and `console.error` have no observable effect in the model.
- Environment values become constructor parameters. `basePath`
  (page.tsx:71) is never used by the page's logic and is not modelled.
- `JsStrings.ToLower`: lower-cases ASCII letters only, not the full Unicode
  case mapping of `toLowerCase`, because Unicode case tables are outside this model.
- `FilesPage.Page.HandleFileUpload`: a null `FileList` is modelled as an empty
  selection, because both return before doing anything. The null check on
  `fileInputRef.current` is not modelled, because the input is always mounted
  on the unlocked page.
- The `pagination` values and each category's `images` are carried in the
  data model but used by no logic.
- app/api/orders/route.ts is not part of this model. It is a thin wrapper over
  a database module that is not available here.
