# album-animado in Dafny

A model of the photo-album application album-animado. An owner keeps albums
of photos, shares an album through a secret link, and uploads photos whose
title, description, colour and acquisition date fall back to defaults. The
application has two implementations of the same album and photo lifecycle:

- the Express controllers of the backend, over an ORM, in `BackendDb`,
  `AlbumController`, `PhotoController`, `ErrorHandler` and `Server`;
- the client-side service of the web client, which talks to a hosted
  database and storage bucket directly, in `AlbumsService`.

Both keep the same sharing rule, stated once in `Sharing`: a shared album
carries a non-empty token, a private one none. Both upload into a storage
bucket that refuses a name it already holds, stated once in `Storage`.

The web client's pages are modelled as well, as their state cells and the
expressions they render:

- the sign-up stepper's checks (`AuthPage`);
- the owner's album page (`AlbumDetailPage`);
- the public album page (`PublicAlbumPage`);
- the album list's delete dialog (`AlbumListPage`);
- the header's initials and user menu (`AppLayout`);
- the browser routes (`Routes`).

The helpers the pages share are modelled too:

- the pager's page list (`Pagination`);
- twelve-per-page slicing (`Paging`);
- the Portuguese colour-name converter (`Cores`);
- the multi-step form (`Stepper`).

Tables and storage are held in memory:

- the ORM's tables are a map of albums, a sequence of photo rows and id
  counters;
- the hosted database's tables are a map of albums keyed by id and a
  sequence of photo rows;
- a storage bucket is the set of object names in it.

Everything the outside world supplies comes in as a parameter:

- clock readings, random tokens and UUIDs;
- the row ids the database assigns;
- the errors the storage service reports, in both implementations;
- the errors the hosted database reports to the client service (the backend's ORM calls are taken to succeed, see "## Left out");
- the user table the public album's owner profile is read from;
- EXIF and colour extraction, `path.parse`, and the bucket's public URLs.

Handlers that change tables are methods on a class holding them. Every such
method keeps the tables' invariant and states its whole new state. The
upload loops are the exception to "an error changes nothing", as in the
source: a refused upload keeps the rows and objects of the files before it,
and in the client service a refused insert also leaves that file's object
in the bucket. Every other error path leaves the tables unchanged.

## Model

| member | source | states |
|---|---|---|
| Sharing.NextShareToken | backend/src/controllers/albumController.ts:125-136 | the stored token is consistent with the new sharing flag; it is present iff the album is public; an existing token is kept when sharing is turned on, and the fresh one is used only when there is none |
| Sharing.ReshareIssuesNewToken | backend/src/controllers/albumController.ts:129-136 | turning sharing off and on again yields the second fresh token, not the first |
| Sharing.ToggleKeepsExistingToken | frontend/src/services/albums.ts:184-186 | sharing an album that still holds a token reuses that token |
| BackendDb.PhotosOfMembers | backend/src/controllers/albumController.ts:42 | an album's photo list holds exactly the rows pointing at it |
| BackendDb.NoPhotosMeansNoRow | backend/src/controllers/albumController.ts:92-99 | the photo count is 0 iff no row points at the album |
| BackendDb.WithoutMembers | backend/src/controllers/photoController.ts:108 | deleting by id keeps exactly the rows with another id |
| BackendDb.FindPhoto | backend/src/controllers/photoController.ts:99-102 | the lookup by id finds the first row with that id, or reports that none has it |
| BackendDb.WithoutAbsent | backend/src/controllers/photoController.ts:108 | deleting an id that no row has leaves the table as it was |
| BackendDb.WithoutOne | backend/src/controllers/photoController.ts:108 | with unique ids, deleting by id removes exactly that one row and keeps the order of the rest |
| BackendDb.RemoveRowKeepsValid | backend/src/controllers/photoController.ts:108-114 | removing a row, and perhaps its object, keeps every photo in an album with its own id and its own stored object |
| BackendDb.AppendRowKeepsValid | backend/src/controllers/photoController.ts:72-83 | adding a row with the next id, for an existing album, under a new object name keeps the table valid |
| BackendDb.Owns | backend/src/controllers/albumController.ts:41 | definition: what `findFirst({ where: { id, userId } })` finds: the album exists and belongs to the user |
| BackendDb.PhotosOf | backend/src/controllers/albumController.ts:42 | definition: the rows whose `albumId` is the album's, in table order |
| BackendDb.PhotoCount | backend/src/controllers/albumController.ts:92-99 | definition: `_count.photos`, the number of rows pointing at the album |
| BackendDb.Without | backend/src/controllers/photoController.ts:108 | definition: the table after `photo.delete({ where: { id } })`: every row with another id, in order |
| ErrorHandler.Handle | backend/src/middleware/errorHandler.ts:17-30 | an HttpError answers with its own status and message; otherwise 400 iff a multer error or the image-only error, else 500 with the error's message or "Internal server error"; one response per branch |
| ErrorHandler.HttpErrorFirst | backend/src/middleware/errorHandler.ts:17-27 | an HttpError keeps its status even when its message is the image-only text |
| Server.AllowedOrigins | backend/src/server.ts:11 | one entry per comma-separated piece of the setting, each trimmed; no entry holds a comma or starts or ends with white space |
| Server.OriginAllowedIffListed | backend/src/server.ts:16-19 | a non-empty origin is allowed iff it equals one trimmed entry, and rejected otherwise |
| Server.AllowlistOfPlainList | backend/src/server.ts:11 | a setting joined from clean entries parses back to exactly those entries |
| Server.NoOriginAllowed | backend/src/server.ts:16-17 | a request without an Origin header is always allowed |
| Server.CheckOrigin | backend/src/server.ts:15-20 | definition: a request with no Origin header, or an empty one, passes; so does one whose origin is an entry of the allowlist; any other is rejected with "Not allowed by CORS" |
| Server.RouteGet | backend/src/server.ts:28-34 | definition: "/health"; the album router's public-album route `/api/albums/public/albums/:token` for one non-empty segment; otherwise the router whose mount (`/api/auth`, `/api/albums`, `/api/photos`) is the path or a prefix of it ending in a slash; otherwise no route |
| AlbumController.GetUserId | backend/src/controllers/albumController.ts:14-19 | succeeds iff there is a user, with that user's id; otherwise the error handler answers 401 "Não autorizado" |
| AlbumController.IssueText | backend/src/controllers/albumController.ts:9-12 | definition: the stand-in message of the thrown validation error, the issue texts joined with line breaks |
| AlbumController.ParseAlbumBody | backend/src/controllers/albumController.ts:9-12 | the body is accepted iff both title and description are non-empty strings, and these are returned; otherwise one or two issues are raised and the answer is a 500 |
| AlbumController.CreateAlbum | backend/src/controllers/albumController.ts:52-63 | 401 without a user; a rejected body changes nothing; otherwise a private album without a token, owned by the caller, is stored under the next id |
| AlbumController.GetAlbum | backend/src/controllers/albumController.ts:35-50 | 401 without a user, 404 unless the album is the caller's; otherwise the album with exactly its photos, sorted by acquisition date, ascending iff the query is "asc" |
| AlbumController.UpdateAlbum | backend/src/controllers/albumController.ts:65-83 | the body is checked before the lookup; 404 for a missing or foreign album; only the title and the description of that album change |
| AlbumController.DeleteAlbum | backend/src/controllers/albumController.ts:85-109 | 401, then 404, then 400 when the album has a photo; otherwise exactly that album is removed |
| AlbumController.ToggleShareAlbum | backend/src/controllers/albumController.ts:112-151 | 401 or 404 with nothing changed; otherwise the sharing flag flips and the token follows the sharing rule; the answer's link is present iff the token is, and is `protocol://host/api/public/albums/<token>`, as written |
| AlbumController.ShareUrl | backend/src/controllers/albumController.ts:147 | the link as written is never the link of the public album route, whatever the token |
| AlbumController.ShareUrlPath | backend/src/controllers/albumController.ts:147 | the corrected link path, under the mount of the album router, reaches the public album handler for the token |
| AlbumController.ShareUrlAsWrittenHasNoRoute | backend/src/controllers/albumController.ts:147 | the link path as written reaches no mounted route, whatever the token |
| AlbumController.GetPublicAlbum | backend/src/controllers/albumController.ts:154-173 | an album is returned iff one is public under that token, with its photos sorted and the name and e-mail of the user who owns it; otherwise 404 "Álbum não encontrado ou não está público" |
| AlbumController.PrivateAlbumsAreHidden | backend/src/controllers/albumController.ts:159-160 | a private album is never found by token, and no album is shared under the empty token |
| AlbumController.SortAscending | backend/src/controllers/albumController.ts:38 | definition: ascending exactly when the `sort` query is "asc"; any other value or none sorts descending (the same rule at albumController.ts:157) |
| AlbumController.FieldIssues | backend/src/controllers/albumController.ts:9-12 | definition: a missing field reports "Required", an empty one the field's own message, a non-empty one nothing |
| AlbumController.AlbumIssues | backend/src/controllers/albumController.ts:9-12 | definition: the issues of `albumSchema`, the title's before the description's |
| AlbumController.IsFreshToken | backend/src/controllers/albumController.ts:130 | definition: 64 lower-case hexadecimal digits, the form of `randomBytes(32).toString("hex")` |
| AlbumController.ShareUrlPathAsWritten | backend/src/controllers/albumController.ts:147 | definition: `/api/public/albums/` followed by the token, as written |
| AlbumController.SharedUnder | backend/src/controllers/albumController.ts:160 | definition: the album exists, is public, and its token is the one asked for |
| AlbumController.ListsPhotosOf | backend/src/controllers/albumController.ts:41-43 | definition: the answer's photos are exactly the album's rows, as a multiset, sorted by acquisition date in the requested direction |
| PhotoController.AcquisitionDate | backend/src/controllers/photoController.ts:37-44 | the form's date when it is given and parses, else the EXIF date, else now |
| PhotoController.StoredNameInjective | backend/src/controllers/photoController.ts:55 | different clock readings or original names give different object names |
| PhotoController.FirstDash | backend/src/controllers/photoController.ts:55 | in an object name, the dash after the decimal clock reading is the first dash |
| PhotoController.NewPhoto | backend/src/controllers/photoController.ts:37-83 | the created row carries the album id, the size, the stored name and its public URL; the title falls back to the name's stem; an empty description becomes null; the colour falls back to the extracted one |
| Storage.UploadFailure | backend/src/controllers/photoController.ts:56-65 | an upload fails exactly when the storage service reports an error of its own, which wins, or already holds the object name; the web client's upload (frontend/src/services/albums.ts:237-244) meets the same bucket |
| PhotoController.ObjectNamesAppend | backend/src/controllers/photoController.ts:88 | a new row adds exactly its object name to the names of the rows |
| PhotoController.UploadedStep | backend/src/controllers/photoController.ts:34-89 | the rows for n + 1 files are the rows for n files, then the row for file n |
| PhotoController.AddPhotos | backend/src/controllers/photoController.ts:19-92 | 401, 404 for a missing or foreign album, 400 for no files, with nothing changed; otherwise one row per file, in order, until the first refused upload, which answers 500 "Erro ao fazer upload: ..." |
| PhotoController.UploadAll | backend/src/controllers/photoController.ts:33-89 | after the loop, the table holds the old rows plus one row per stored file, in order; either every file was stored, or the next one's upload was refused |
| PhotoController.StoreFile | backend/src/controllers/photoController.ts:35-88 | a refused upload changes nothing; otherwise the object and its row are added under the next id |
| PhotoController.DeletePhoto | backend/src/controllers/photoController.ts:94-117 | 401, then 404 unless the photo exists in one of the caller's albums; otherwise exactly that row is removed, and then its object if the storage service does so |
| PhotoController.StoredName | backend/src/controllers/photoController.ts:55 | definition: the decimal clock reading, a dash, and the original file name |
| PhotoController.Listed | backend/src/controllers/photoController.ts:28-29 | definition: a missing file list is read as an empty one |
| PhotoController.Admitted | backend/src/controllers/photoController.ts:20-31 | definition: the guards before any upload: a user, an album of theirs, at least one file |
| PhotoController.Uploaded | backend/src/controllers/photoController.ts:33-88 | definition: the rows created for the first n files, in file order, under consecutive ids |
| PhotoController.UploadCommitted | backend/src/controllers/photoController.ts:33-91 | definition: the first n files are stored and recorded in order; either all of them were, with their rows as the answer, or the next upload was refused and the answer is the error |
| PhotoController.OwnsPhoto | backend/src/controllers/photoController.ts:99-106 | definition: the photo exists and its album belongs to the user |
| AlbumsService.PhotosOf | frontend/src/services/albums.ts:55-58 | the rows of one album, all of them and no other |
| AlbumsService.FindRow | frontend/src/services/albums.ts:290-294 | the position of a row with the id, or none at all |
| AlbumsService.SingleRow | frontend/src/services/albums.ts:290-296 | `.single()` for an id: the position of the one row with it; none when no row or more than one has it |
| AlbumsService.WithoutIdMembers | frontend/src/services/albums.ts:314-317 | deleting by id keeps exactly the rows with another id |
| AlbumsService.WithoutIdAbsent | frontend/src/services/albums.ts:314-317 | deleting an id no row has changes nothing |
| AlbumsService.WithoutOnlyRow | frontend/src/services/albums.ts:314-317 | deleting the id of the only row with it removes exactly that row |
| AlbumsService.RemoveRowKeepsValid | frontend/src/services/albums.ts:314-322 | removing a row, and perhaps its object, keeps every stored photo's object in the bucket |
| AlbumsService.AppendRowKeepsValid | frontend/src/services/albums.ts:257-273 | inserting a row for a newly stored object keeps the tables valid |
| AlbumsService.ListsPhotosOf | frontend/src/services/albums.ts:56-59 | definition: the answer's photos are exactly the album's rows, as a multiset, sorted by the instant of their acquisition date in the requested direction |
| AlbumsService.FetchAlbum | frontend/src/services/albums.ts:41-64 | "Não autenticado" without a user; a missing or foreign album and a failed photo query are query errors; otherwise exactly that album's photos, ordered by acquisition date, ascending iff the sort is "asc" |
| AlbumsService.FetchPublicAlbum | frontend/src/services/albums.ts:66-89 | an album is returned iff exactly one album is public under the token; its photos are ordered, or empty when their query fails |
| AlbumsService.DeleteAlbum | frontend/src/services/albums.ts:135-156 | any photo pointing at the album blocks the delete; otherwise only an album with both the id and the caller as owner is removed |
| AlbumsService.ToggleShareAlbum | frontend/src/services/albums.ts:158-215 | "Não autenticado"; a query error for a missing or foreign album or a failed update, with nothing changed; otherwise `is_public` flips, the token follows the sharing rule with a fresh UUID, `updated_at` is stamped, and the link is `origin + "/album/" + token`, present iff the token is |
| AlbumsService.LastDot | frontend/src/services/albums.ts:254 | the position of the last dot of a name, if it has one |
| AlbumsService.StripExtension | frontend/src/services/albums.ts:254 | the name cut before a final `.` followed by a non-empty run of characters other than `.` and `/`; a name without such an ending is kept whole |
| AlbumsService.NewRow | frontend/src/services/albums.ts:234-268 | the inserted row: the stored name `user/album/millis-name` and its public URL; the title is the form's title or the stripped name; the date is the form's date or now; an empty description or colour becomes null |
| AlbumsService.ObjectNamesAppend | frontend/src/services/albums.ts:273 | a new row adds exactly its object name to the names of the rows |
| AlbumsService.InsertedStep | frontend/src/services/albums.ts:233-274 | the rows for n + 1 files are the rows for n files, then the row for file n |
| AlbumsService.UploadPhotos | frontend/src/services/albums.ts:217-283 | "Não autenticado" without a user; otherwise one row per file in input order until the first failure, and `updated_at` is stamped only when every file went through |
| AlbumsService.UploadAll | frontend/src/services/albums.ts:233-274 | the first refused upload throws "Erro ao fazer upload: ..." with nothing stored for that file; a refused insert rethrows and leaves that file's object in the bucket with no row |
| AlbumsService.StoreFile | frontend/src/services/albums.ts:234-273 | a refused upload changes nothing; a refused insert leaves the object behind; otherwise the object and its row are added |
| AlbumsService.DeletePhoto | frontend/src/services/albums.ts:285-323 | "Não autenticado", then a query error unless exactly one row has the id, then "Foto não encontrada" unless the caller owns its album; the row is deleted before the object, and a failed delete touches neither |
| AlbumsService.OwnedBy | frontend/src/services/albums.ts:48-49 | definition: the album exists and its `user_id` is the caller's |
| AlbumsService.WithoutId | frontend/src/services/albums.ts:314-317 | definition: the table after `delete().eq("id", id)`: every row with another id, in order |
| AlbumsService.SharedUnder | frontend/src/services/albums.ts:73-74 | definition: the ids of the albums that are public and carry the token |
| AlbumsService.ShareUrl | frontend/src/services/albums.ts:211-213 | definition: `origin + "/album/" + token` |
| AlbumsService.ExtensionAt | frontend/src/services/albums.ts:254 | definition: `/\.[^/.]+$/` matches at the position: a dot followed, up to the end, by at least one character that is neither a dot nor a slash |
| AlbumsService.ObjectName | frontend/src/services/albums.ts:234 | definition: `user/album/millis-name` |
| AlbumsService.Inserted | frontend/src/services/albums.ts:233-274 | definition: the rows inserted for the first n files, in file order |
| AlbumsService.UploadCommitted | frontend/src/services/albums.ts:233-274 | definition: the first n files are stored and inserted in order; then either all went through, or file n was refused at its upload (nothing stored) or at its insert (its object stays) |
| Ordering.Insert | backend/src/controllers/albumController.ts:42 | inserting into a sorted list gives a sorted permutation of the list plus the new element |
| Ordering.OrderBy | backend/src/controllers/albumController.ts:42 | the rows come back as a permutation of the input, sorted by the key in the requested direction |
| Paging.TotalPages | frontend/src/pages/AlbumDetailPage.tsx:212 | the ceiling of count / 12: enough pages for every photo, and no empty last page |
| Paging.SliceIndex | frontend/src/pages/AlbumDetailPage.tsx:216 | a slice bound as JavaScript reads it, clamped to the list |
| Paging.PageOfIsRun | frontend/src/pages/AlbumDetailPage.tsx:213-217 | page p is the run of at most 12 photos from index (p - 1) * 12, and a page past the last is empty |
| Paging.PagesPrefix | frontend/src/pages/AlbumDetailPage.tsx:213-217 | the first n pages laid end to end are exactly the first 12n photos |
| Paging.PagesCoverList | frontend/src/pages/AlbumDetailPage.tsx:212-217 | all pages together are the photo list, each photo once and in order, and every page but the last is full |
| Paging.PagerShownIffSeveralPages | frontend/src/pages/AlbumDetailPage.tsx:284 | the pager is drawn (more than 12 photos) iff there are at least two pages |
| Paging.ShownRangeMatchesPage | frontend/src/components/ui/Pagination.tsx:49-50 | the "Mostrando a..b" range names exactly the photos of the current page |
| Paging.PageOf | frontend/src/pages/AlbumDetailPage.tsx:213-217 | definition: the JavaScript slice of twelve photos from `(page - 1) * 12` |
| Paging.PagerShown | frontend/src/pages/AlbumDetailPage.tsx:284 | definition: the pager is drawn only for more than twelve photos |
| Pagination.PageItems | frontend/src/components/ui/Pagination.tsx:18-43 | no pager for at most one page; otherwise the list built by the pushes and `includes` checks is the reference layout |
| Pagination.NumbersConcat | frontend/src/components/ui/Pagination.tsx:23-43 | the page numbers of two lists laid end to end are the numbers of each, in order |
| Pagination.PushWindow | frontend/src/components/ui/Pagination.tsx:30-34 | the loop pushes the window lo..hi after the list so far, and every page it holds stays below the last page |
| Pagination.WindowNumbers | frontend/src/components/ui/Pagination.tsx:30-34 | the window's numbers are lo, lo + 1, ..., hi |
| Pagination.NumbersOfLayout | frontend/src/components/ui/Pagination.tsx:23-43 | the layout's numbers are 1, the window, and the last page |
| Pagination.LayoutNumbers | frontend/src/components/ui/Pagination.tsx:23-43 | for a page in range, the numbers strictly increase, lie in 1..t and include the current page |
| Pagination.LayoutEnds | frontend/src/components/ui/Pagination.tsx:23-43 | the list starts with 1; a leading "..." iff current > 3; a trailing "..." iff current < t - 2; it ends with t, and no earlier entry is t |
| Pagination.WindowShape | frontend/src/components/ui/Pagination.tsx:30-34 | the window is the page buttons lo..hi in order |
| Pagination.NavigationStaysInRange | frontend/src/components/ui/Pagination.tsx:57-86 | every enabled prev or next button and every page button leads to a page in 1..t |
| Pagination.Window | frontend/src/components/ui/Pagination.tsx:30-34 | definition: the page buttons lo, lo + 1, ..., hi, none when hi < lo |
| Pagination.Layout | frontend/src/components/ui/Pagination.tsx:22-43 | definition: the reference list: page 1, "..." when the current page is past 3, the window around it, "..." when it is more than two before the end, and the last page |
| Pagination.ShownRange | frontend/src/components/ui/Pagination.tsx:49-50 | definition: `min((current - 1) * perPage + 1, total)` to `min(current * perPage, total)` |
| Pagination.PrevDisabled | frontend/src/components/ui/Pagination.tsx:57 | definition: the previous button is disabled on page 1 |
| Pagination.NextDisabled | frontend/src/components/ui/Pagination.tsx:86 | definition: the next button is disabled on the last page |
| Cores.Lookup | frontend/src/utils/cores.ts:103-106 | the table's value for a name, present iff the name is a key |
| Cores.LookupHex | frontend/src/utils/cores.ts:2-84 | a lookup in a table of hex codes gives a hex code |
| Cores.TableIsHex | frontend/src/utils/cores.ts:2-84 | every table value is `#` and six hex digits |
| Cores.ConvertColor | frontend/src/utils/cores.ts:89-110 | a `#` hex code is kept, case included; six bare hex digits get a `#`; otherwise the trimmed, lower-cased name is looked up; anything else is returned unchanged |
| Cores.IsValidColor | frontend/src/utils/cores.ts:115-125 | valid iff the raw input is six hex digits with an optional `#`, or its trimmed, lower-cased form is a table key |
| Cores.ValidConvertsToHex | frontend/src/utils/cores.ts:89-125 | a valid colour converts to `#` and six hex digits |
| Cores.ConvertIdempotent | frontend/src/utils/cores.ts:89-110 | converting twice is converting once |
| Cores.InvalidUnchanged | frontend/src/utils/cores.ts:109 | an invalid input comes back unchanged, and an accepted hex code keeps its six digits |
| Cores.IsBareHex | frontend/src/utils/cores.ts:98 | definition: `/^[0-9A-Fa-f]{6}$/`: exactly six hex digits |
| Cores.IsHexColor | frontend/src/utils/cores.ts:93 | definition: `/^#[0-9A-Fa-f]{6}$/`: `#` and six hex digits |
| Cores.IsHexWithOptionalHash | frontend/src/utils/cores.ts:119 | definition: `/^#?[0-9A-Fa-f]{6}$/`: six hex digits, with or without `#` |
| Cores.IsKey | frontend/src/utils/cores.ts:124 | definition: `name in coresPortugues`, for the table's own entries |
| Cores.Clean | frontend/src/utils/cores.ts:90 | definition: `entrada.trim().toLowerCase()`, the name key of an input |
| Stepper.StatusesInOrder | frontend/src/components/ui/Stepper.tsx:77 | read left to right, the indicators are complete, then active, then inactive; a connector is filled iff its step is complete |
| Stepper.StatusPartition | frontend/src/components/ui/Stepper.tsx:211 | active iff the current step, complete iff before it, inactive iff after it |
| Stepper.Stepper.UpdateStep | frontend/src/components/ui/Stepper.tsx:31-38 | the step is stored, and exactly one callback fires: the final one iff the step is past the last |
| Stepper.Stepper.HandleBack | frontend/src/components/ui/Stepper.tsx:40-45 | from step 2 on, one step back with direction -1; otherwise nothing changes |
| Stepper.Stepper.HandleNext | frontend/src/components/ui/Stepper.tsx:47-52 | unless on the last step, one step forward with direction +1; otherwise nothing changes |
| Stepper.Stepper.HandleComplete | frontend/src/components/ui/Stepper.tsx:54-57 | the step becomes totalSteps + 1, the form is completed and the final callback fires |
| Stepper.Stepper.ClickIndicator | frontend/src/components/ui/Stepper.tsx:72-75 | ignored on the current step or while indicators are disabled; otherwise a jump there, with direction +1 iff forward; the step stays among the steps |
| Stepper.IndicatorStatus | frontend/src/components/ui/Stepper.tsx:211 | definition: active on the current step, inactive after it, complete before it |
| Stepper.ConnectorComplete | frontend/src/components/ui/Stepper.tsx:77 | definition: the connector after a step is filled once the current step is past it |
| Stepper.Stepper.IsCompleted | frontend/src/components/ui/Stepper.tsx:28 | definition: `currentStep > totalSteps` |
| Stepper.Stepper.IsLastStep | frontend/src/components/ui/Stepper.tsx:29 | definition: `currentStep === totalSteps` |
| Stepper.Stepper.constructor | frontend/src/components/ui/Stepper.tsx:24-25 | the form starts on the initial step with direction 0 and no callback fired |
| AuthPage.IndexOf | frontend/src/pages/AuthPage.tsx:85 | the first position of a character, or none |
| AuthPage.EmailTestSound | frontend/src/pages/AuthPage.tsx:85 | a string the e-mail test accepts matches the pattern |
| AuthPage.EmailTestComplete | frontend/src/pages/AuthPage.tsx:85 | a string the pattern matches passes the e-mail test |
| AuthPage.EmailTestMatchesPattern | frontend/src/pages/AuthPage.tsx:85 | the e-mail test accepts exactly what `^[^\s@]+@[^\s@]+\.[^\s@]+$` matches |
| AuthPage.StepperIssue | frontend/src/pages/AuthPage.tsx:81-92 | no complaint iff the name has 2 characters, the e-mail matches the pattern and the password has 6; otherwise the first failing check, in that order, decides the message |
| AuthPage.EmptyEmailRejected | frontend/src/pages/AuthPage.tsx:85 | the empty e-mail never matches the pattern |
| AuthPage.RedirectTarget | frontend/src/pages/AuthPage.tsx:66-67 | the page the user came from when known and non-empty, else "/albums" |
| AuthPage.ErrorText | frontend/src/pages/AuthPage.tsx:71 | the error's own message when non-empty, else the sign-in or sign-up default |
| AuthPage.SignUpForm.HandleStepperComplete | frontend/src/pages/AuthPage.tsx:80-100 | the error becomes the first complaint; with one, nothing is submitted; without one, exactly {name, email, password} is submitted |
| AuthPage.SignUpForm.OnError | frontend/src/pages/AuthPage.tsx:69-73 | the error line shows the failure's text |
| AuthPage.MatchesEmailPattern | frontend/src/pages/AuthPage.tsx:85 | definition: the regex read literally: a non-empty local part, `@`, a non-empty stretch, `.`, a non-empty rest, none holding `@` or white space |
| AuthPage.IsEmail | frontend/src/pages/AuthPage.tsx:85 | definition: the direct test, split at the first `@`, that EmailTestMatchesPattern proves equal to the regex |
| AuthPage.SignUpForm.constructor | frontend/src/pages/AuthPage.tsx:35-38 | the three fields start empty, with no error and nothing submitted |
| AuthPage.SignUpForm.SetName | frontend/src/pages/AuthPage.tsx:184 | the name field takes the typed value |
| AuthPage.SignUpForm.SetEmail | frontend/src/pages/AuthPage.tsx:198 | the e-mail field takes the typed value |
| AuthPage.SignUpForm.SetPassword | frontend/src/pages/AuthPage.tsx:212 | the password field takes the typed value |
| AlbumDetailPage.PhotoCount | frontend/src/pages/AlbumDetailPage.tsx:209 | the number of photos, 0 without a list |
| AlbumDetailPage.PaginatedPhotos | frontend/src/pages/AlbumDetailPage.tsx:213-217 | nothing without a list; otherwise at most 12 photos, the run from (page - 1) * 12 |
| AlbumDetailPage.ShareUrl | frontend/src/pages/AlbumDetailPage.tsx:136-138 | present iff the album has a token, and then `origin + "/public/album/" + token` |
| AlbumDetailPage.DeleteAndControlsExclusive | frontend/src/pages/AlbumDetailPage.tsx:257-266 | the delete button (no photos) and the sort controls (some photos) never show together |
| AlbumDetailPage.UploadColour | frontend/src/pages/AlbumDetailPage.tsx:117 | a colour is sent iff one was typed, and then converted |
| AlbumDetailPage.AcceptedColourSentAsHex | frontend/src/pages/AlbumDetailPage.tsx:117 | a typed colour the validator accepts is sent as `#` and six hex digits |
| AlbumDetailPage.PayloadOf | frontend/src/pages/AlbumDetailPage.tsx:112-118 | the upload payload carries the typed fields, with the colour converted |
| AlbumDetailPage.DetailPage.HandleSortChange | frontend/src/pages/AlbumDetailPage.tsx:220-223 | the new order is stored, and the page goes back to 1 |
| AlbumDetailPage.DetailPage.HandleFilesSelected | frontend/src/pages/AlbumDetailPage.tsx:132-134 | new picks are appended after the selection, which is kept as a prefix |
| AlbumDetailPage.DetailPage.ClearSelection | frontend/src/pages/AlbumDetailPage.tsx:324 | the selection is emptied |
| AlbumDetailPage.DetailPage.CloseUpload | frontend/src/pages/AlbumDetailPage.tsx:300-304 | the dialog closes and the selection is emptied, as the cancel button does too |
| AlbumDetailPage.DetailPage.SubmitUpload | frontend/src/pages/AlbumDetailPage.tsx:310-313 | nothing is sent without picked files; otherwise one upload of all of them |
| AlbumDetailPage.DetailPage.UploadSucceeded | frontend/src/pages/AlbumDetailPage.tsx:119-124 | after an upload the dialog closes and the selection is emptied |
| AlbumDetailPage.DeleteButtonShown | frontend/src/pages/AlbumDetailPage.tsx:257 | definition: the delete button shows while the album has no photo |
| AlbumDetailPage.ControlsShown | frontend/src/pages/AlbumDetailPage.tsx:266 | definition: the sort and view controls show once there is a photo |
| AlbumDetailPage.DetailPage.constructor | frontend/src/pages/AlbumDetailPage.tsx:58-64 | the page starts sorted "desc", on page 1, with the upload dialog closed and nothing selected |
| AlbumDetailPage.DetailPage.SetPage | frontend/src/pages/AlbumDetailPage.tsx:288 | the pager's page becomes the current page |
| AlbumDetailPage.DetailPage.OpenUpload | frontend/src/pages/AlbumDetailPage.tsx:254 | the upload dialog opens |
| PublicAlbumPage.AuthorLabel | frontend/src/pages/PublicAlbumPage.tsx:97-102 | an author line iff the answer has a profile: the name when non-empty, else the e-mail |
| PublicAlbumPage.PaginatedPhotos | frontend/src/pages/PublicAlbumPage.tsx:60-64 | at most 12 photos, none without a list |
| PublicAlbumPage.SameSliceAsOwnerPage | frontend/src/pages/PublicAlbumPage.tsx:60-64 | the public page shows the same photos as the owner's page for the same list and page |
| PublicAlbumPage.EmptyStateExcludesPhotos | frontend/src/pages/PublicAlbumPage.tsx:107-135 | the empty state shows iff the controls do not; the pager shows only with the controls, and iff there are two pages or more |
| PublicAlbumPage.PublicPage.HandleSortChange | frontend/src/pages/PublicAlbumPage.tsx:66-69 | the new order is stored, and the page goes back to 1 |
| PublicAlbumPage.EmptyStateShown | frontend/src/pages/PublicAlbumPage.tsx:118 | definition: the empty state shows while there is no photo |
| PublicAlbumPage.ControlsShown | frontend/src/pages/PublicAlbumPage.tsx:107 | definition: the sort and view controls show once there is a photo |
| PublicAlbumPage.PublicPage.constructor | frontend/src/pages/PublicAlbumPage.tsx:20-22 | the page starts sorted "desc" on page 1 |
| PublicAlbumPage.PublicPage.SetPage | frontend/src/pages/PublicAlbumPage.tsx:139 | the pager's page becomes the current page |
| AlbumListPage.Content | frontend/src/pages/AlbumListPage.tsx:130-139 | "Excluir álbum?" and the danger style iff an album is attached, naming it; otherwise the explanation that it holds photos, in the warning style |
| AlbumListPage.ListPage.CloseCreate | frontend/src/pages/AlbumListPage.tsx:29-32 | a successful create, or cancel, closes the create modal |
| AlbumListPage.ListPage.HandleDelete | frontend/src/pages/AlbumListPage.tsx:43-49 | the dialog opens; it holds the album iff the album has no photos |
| AlbumListPage.ListPage.ConfirmDelete | frontend/src/pages/AlbumListPage.tsx:51-55 | a delete is asked for only when an album is attached, and then for that album |
| AlbumListPage.ListPage.CloseDelete | frontend/src/pages/AlbumListPage.tsx:128 | a successful delete or a close resets the dialog to closed and empty |
| AlbumListPage.ListPage.PressConfirm | frontend/src/components/ui/ConfirmDialog.tsx:27-30 | confirm then close: the dialog ends closed and empty, and only an album without photos is ever sent for deletion |
| AlbumListPage.PhotoCountOf | frontend/src/pages/AlbumListPage.tsx:44 | definition: `album.photo_count ?? 0` |
| AlbumListPage.ConfirmMessage | frontend/src/pages/AlbumListPage.tsx:135 | definition: the confirmation text naming the album's title |
| AlbumListPage.ListPage.constructor | frontend/src/pages/AlbumListPage.tsx:15-20 | the create modal and the delete dialog start closed, with no album attached and no delete asked for |
| AlbumListPage.ListPage.OpenCreate | frontend/src/pages/AlbumListPage.tsx:70 | the create modal opens |
| AppLayout.FirstChars | frontend/src/components/Layout/AppLayout.tsx:24-25 | at most one character per word |
| AppLayout.Take | frontend/src/components/Layout/AppLayout.tsx:27 | the first n characters of a string at least n long, and the whole of a shorter string |
| AppLayout.Initials | frontend/src/components/Layout/AppLayout.tsx:20-30 | at most two characters, and never empty without a name |
| AppLayout.OneWordInitial | frontend/src/components/Layout/AppLayout.tsx:21-27 | one word gives its first letter, upper-cased |
| AppLayout.ManyWordInitials | frontend/src/components/Layout/AppLayout.tsx:21-27 | several words give the first letters of the first two, upper-cased |
| AppLayout.FirstTwoChars | frontend/src/components/Layout/AppLayout.tsx:24-25 | the first two words give the first two characters |
| AppLayout.EmailInitials | frontend/src/components/Layout/AppLayout.tsx:29 | without a name, the e-mail's first two characters upper-cased, or "U" for a missing or empty e-mail |
| AppLayout.UserMenu.Toggle | frontend/src/components/Layout/AppLayout.tsx:79 | the avatar flips the menu flag |
| AppLayout.UserMenu.KeyDown | frontend/src/components/Layout/AppLayout.tsx:41-45 | Escape closes the menu; other keys leave it |
| AppLayout.UserMenu.MouseDown | frontend/src/components/Layout/AppLayout.tsx:35-39 | a press outside closes the menu; one inside leaves it |
| AppLayout.UserMenu.Logout | frontend/src/components/Layout/AppLayout.tsx:93-96 | the menu closes, the user is signed out, and the router goes to "/" |
| AppLayout.FirstCharsConcat | frontend/src/components/Layout/AppLayout.tsx:22-26 | the initials of two lists of pieces laid end to end are those of each, in order |
| AppLayout.EmptyPieceAddsNothing | frontend/src/components/Layout/AppLayout.tsx:22-26 | an empty piece, as a doubled, leading or trailing space leaves, adds nothing: "Ana  Maria" gives the same initials as "Ana Maria" |
| AppLayout.UserMenu.constructor | frontend/src/components/Layout/AppLayout.tsx:12 | the menu starts closed, with the user signed in |
| Routes.OwnerPageLinkOpensPublicAlbum | frontend/src/App.tsx:17 | the owner page's share link opens the public album of its token, a page without sign-in |
| Routes.ServiceLinkOpensNoPage | frontend/src/services/albums.ts:211-213 | the service's `/album/` link opens no page, whatever the token |
| Routes.DefaultRedirectIsAlbumList | frontend/src/App.tsx:25 | the default redirect after signing in opens the album list |
| Routes.SignOutLandsOnLanding | frontend/src/App.tsx:12 | "/" opens the landing page |
| Routes.RouteOf | frontend/src/App.tsx:10-31 | definition: "/" landing, "/login", "/register", `/public/album/:token`, "/albums" and `/albums/:id`, each `:param` one non-empty segment; any other path opens no page |
| Routes.RequiresSignIn | frontend/src/App.tsx:19-30 | definition: the album list and the album page are behind the sign-in guard |

## Left out

- Rendering, styling and animation of every component are not modelled, nor its motion variants. Only the state cells and the values the components show are modelled.
- `listAlbums` and `fetchAlbums` are not modelled. They are listing queries ordered by `updatedAt`, with a thumbnail photo, and the client one fans out with `Promise.all`, which is concurrency.
- The client service's `createAlbum` and `updateAlbum` are not modelled. They are single SDK calls with no logic of their own; the backend's create and update are modelled.
- `Common.ToLower` and `Common.ToUpper` map ASCII and Latin-1 letters only. JavaScript's full Unicode case mapping, which can change the length of a string, is not modelled.
- String lengths are counted in characters, not in UTF-16 code units.
- `Cores.Lookup` holds the colour table's own entries. JavaScript's inherited object keys (such as `"constructor"`) are not modelled.
- `AlbumController.ParseAlbumBody`: the error message is a stand-in, the issue texts joined with line breaks. The JSON text of zod's error is not reproduced. A body field that is present but not a string is not modelled; fields are optional strings.
- Route ids are integers in the model. The backend's `Number(req.params.id)`, and its `NaN` for a non-numeric id, is not modelled.
- The ORM's defaults are assumed: a new album is private and has no token.
- Dates are taken as input. The backend's dates are instants in milliseconds. The client's are ISO strings, ordered through an `instant` function given as a parameter.
- The order of rows with equal acquisition dates is not fixed by the database. The model keeps input order; the contracts only say "sorted permutation".
- `AlbumsService.DeleteAlbum`: the photo query is assumed to succeed. When it fails (`photos` is null) the source goes on to delete; the model does not cover that case. The delete call's own error is not modelled.
- `AlbumsService.UploadPhotos`: the result of the final `updated_at` update is not modelled; the source ignores it. The database's row-level security policies are not modelled; the service itself checks no ownership before an upload.
- PhotoController.AddPhotos: a failing `photo.create` of the ORM is not modelled; the row is always created once the upload succeeds.
- AlbumController.CreateAlbum: a failing `album.create` of the ORM is not modelled; once the body is accepted the album is always stored.
- AlbumController.UpdateAlbum: a failing `album.update` of the ORM is not modelled; an accepted update of an owned album always succeeds.
- AlbumController.DeleteAlbum: a failing `album.delete` of the ORM is not modelled; an empty owned album is always removed.
- AlbumController.ToggleShareAlbum: a failing `album.update` of the ORM is not modelled; an owner's toggle always succeeds.
- PhotoController.DeletePhoto: a failing `photo.delete` of the ORM is not modelled; the caller's photo row is always removed.
- The error middleware's `console.error` logging (backend/src/middleware/errorHandler.ts:12-15) is not modelled; it is output only and does not change the response.
- Temporary files are not modelled: the backend's `fs.readFile` and `fs.unlink` of multer's files, and the upload limits of multer.
- The following are pure functions or inputs given as parameters, not modelled: EXIF and colour extraction, `path.parse(...).name`, `new Date(text)`, the bucket's public URL, clocks, `crypto.randomBytes` and `crypto.randomUUID`. `AlbumController.ToggleShareAlbum` requires the token to be 64 lowercase hex digits, and `AlbumsService.ToggleShareAlbum` requires the UUID to be non-empty.
- The outcome of the storage service's object removal is an input (`removed`). Its errors are ignored by both sources.
- `Server.RouteGet` compares paths exactly and case-sensitively. Express's default case-insensitive routing and its trailing-slash tolerance are not modelled; the share-link finding does not depend on them, since `/api/public/` and `/api/albums/` differ either way.
- `PublicAlbumPage.AuthorLabel` models the page's `album.user &&` expression for any answer. The client's `fetchPublicAlbum` selects only the album's own columns and its photos, so in the web client `album.user` is always missing and the author line is never shown; only the backend's public answer carries the owner.
- `Routes.RouteOf` compares paths exactly. React Router's case-insensitive matching and its trailing-slash tolerance are not modelled.
- The sign-in guard (`ProtectedRoute`), the session subscription of the auth context, the clipboard copy and its timer, and the drag-and-drop folder traversal are left out, because they are asynchronous browser or SDK callbacks.
- `formatBytes` and `formatDate` are left out. They rely on floating point and a date-formatting library.
- `AlbumCard` and `AlbumTable` are left out: their `canDelete` rule is the photo-count guard already modelled for deletion.
- The sign-in form (react-hook-form with zod) is left out. Only the sign-up stepper's own checks are modelled.

## Findings

| source | as written | input that shows it | evidently intended | confidence | as-written member | corrected member |
|---|---|---|---|---|---|---|
| backend/src/controllers/albumController.ts:147 | the share link is `protocol://host/api/public/albums/<token>` | any token, e.g. `abc`: the path `/api/public/albums/abc` is not under any router the server mounts (backend/src/server.ts:32-34) | `/api/albums/public/albums/<token>`, where the album router serves the public album (backend/src/routes/albumRoutes.ts:18) | not executed; the mismatch is between fixed path texts | AlbumController.ShareUrlAsWrittenHasNoRoute | AlbumController.ShareUrlPath |

The share links of the web client differ too, and are kept as written. The
album service builds `origin + "/album/" + token`
(frontend/src/services/albums.ts:212), and `Routes.ServiceLinkOpensNoPage`
shows that this link opens no page. The album page builds
`origin + "/public/album/" + token` (frontend/src/pages/AlbumDetailPage.tsx:137),
which opens the public album (`Routes.OwnerPageLinkOpensPublicAlbum`). The
page shows its own link, so a user never sees the service's.
