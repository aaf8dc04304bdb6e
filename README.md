# sheetmusic-front, modelled in Dafny

`sheetmusic-front` is the React administration front end of a band's sheet-music
service: themes, versions, repertoires, events and locations, and file uploads.
This project models the parts of it that compute something and proves what they
promise:

- the session kept in `localStorage` and the token refresh on a 401 (`api.ts`);
- the two upload queues;
- the generic `DataTable` and `FormDialog`;
- the filter, sort and page pipelines of the theme, version and event lists;
- the form state and payloads of the event, version and location editors and of
  the five resource pages;
- the view switches of `EventManager` and `ThemeManager`, the dark-mode context,
  and the wind-instrument catalogue.

There is one Dafny module per source file, plus a few shared modules:

- `Js` gives JavaScript values, truthiness, `||`, `String()`, `includes`, and `toLowerCase` on the Latin-1 capitals.
- `Wrappers` gives `Option` and `Result`.
- `Seqs` gives `filter` and its lemmas.
- `Json` gives the `JSON.stringify`/`JSON.parse` cases the session needs.
- `Storage` is `localStorage`.
- `FormData` is `File` and `FormData`.
- `Types` gives the records of `src/types/api.ts`.
- `ListSort` gives the shared sort state, comparator and `Array.prototype.sort`.
- `Pages` and `ResourcePage` give what the five resource pages share.

A React component becomes a class. Its `useState` fields are the class fields, and
each handler is a method whose `modifies this` clause covers the state it sets. An
effect that runs after a state change (re-filtering a list, persisting the dark
mode) is a method invoked after the handler it follows. A handler that calls an asynchronous loader itself (`EventTable`'s sort and paging handlers) takes that loader's response as a parameter, returns the request it sent, and reads the request from the state before the handler's own changes, as the loader's closure does. Every answer from the
network, every `window.confirm`, the clock, the random ids and `localeCompare`
are parameters of the member that uses them.

Some behaviours of the code that the model keeps as written:

- `api.ts` does not log out on a 401 when no refresh token is stored.
- A retried request that fails again with 401 is rejected, without logout.
- The `VersionModal` body always carries `notes`, as its fourth text part.
- Saving an event always sets its status to `scheduled` (`EventForm.UntouchedEditReschedules`).
- `EventDetailOriginal` keeps the previous `location_details` after creating a location.
- `EventDetailOriginal`'s location dialog keeps what was typed when it closes.
- `EventDetailOriginal`'s Save button is not disabled while a location is being created.
- `EventDetailOriginal` resets the new-location record without its contact keys.
- `EventDetail` sets an `error` it never displays.
- The themes page counts the rows of the page it received, not the server's total
  (`ThemesPage.CountIsRowsAfterUnwrap`), because `getThemes` already unwrapped `results`.

## Model

| member | source | states |
|---|---|---|
| Api.UserRoundTrip | src/services/api.ts:57-64 | the user text `login` stores parses back to the very same record |
| Api.StoredUserReadsBack | src/services/api.ts:75-78 | `getCurrentUser` on a storage holding a stringified user gives that user |
| Api.BearerFor | src/services/api.ts:17-23 | an `Authorization` header exists exactly when a non-empty access token is stored, and it is `Bearer <token>` |
| Api.LoginStores | src/services/api.ts:50-67 | after login both tokens are stored under their keys, the current user is id 1 with the typed username and empty e-mail and names, and no other key changes |
| Api.AuthenticatedAfterLogin | src/services/api.ts:80-82 | after login the session is authenticated exactly when the server did not send an empty access token (a missing one is stored as the truthy `"undefined"`) |
| Api.LogoutClears | src/services/api.ts:69-73 | logout removes exactly the three session keys, leaves no user and no session, and is idempotent |
| Api.OnError | src/services/api.ts:29-33 | a refresh is attempted exactly for a 401 on a request not yet retried while a non-empty refresh token is stored |
| Api.RequestConfig.constructor | src/services/api.ts:28-30 | a fresh request is not marked `_retry` and has no `Authorization` header |
| Api.ApiService.constructor | src/services/api.ts:9-16 | the service works on the given storage |
| Api.ApiService.Login | src/services/api.ts:50-67 | the login POST goes through the response interceptor (lines 25-47): a fulfilled call, first time or after a refresh, leaves the logged-in storage and returns the tokens with the built user; a failure the interceptor does not refresh stores nothing; a refreshable 401 either logs out (refresh failed) or leaves the refreshed access token (retry failed) before rejecting with axios's message |
| Api.ApiService.Logout | src/services/api.ts:69-73 | the storage afterwards is the logged-out storage |
| Api.ApiService.AttachToken | src/services/api.ts:17-23 | the request interceptor sets the header from the stored token when there is one and otherwise keeps the header it had; the retry flag is untouched |
| Api.ApiService.Send | src/services/api.ts:25-47 | one call through both interceptors sends one or two requests; success or a non-refreshable failure sends once and changes nothing; a refreshable 401 calls the refresh endpoint with the stored token, then either logs out and rejects with the original error, or stores the new token and re-sends the original request exactly once, with the refreshed bearer (or its old header when the new token is empty), answering with that retry's outcome; the request is marked retried on its first 401 |
| Api.ListPayload | src/services/api.ts:84-87 | the list getters return `results` when it is truthy and the whole body otherwise, and throw on a null or undefined body |
| Api.UploadFile | src/services/api.ts:150-160 | the upload posts to the given endpoint a single part named `file` holding the file |
| Api.UploadMultipleFiles | src/services/api.ts:162-174 | the upload posts one part named `files` per file, in the order given |
| DataTable.HandleSort | src/components/common/DataTable.tsx:82-88 | no request without `onSort`; otherwise the clicked field is requested, descending exactly when it is the current field sorted ascending |
| DataTable.HandleSortIsToggle | src/components/common/DataTable.tsx:82-88 | with a sort field set, the request equals the header toggle shared with the list pages |
| DataTable.HeaderSortLabel | src/components/common/DataTable.tsx:158-165 | a sort label exists exactly on sortable columns when `onSort` is given; it is active on the sort field and shows its direction there, ascending elsewhere |
| DataTable.AssembleActions | src/components/common/DataTable.tsx:90-119 | View, Edit and Delete appear exactly when their handler is given, in that order, followed by the caller's actions unchanged |
| DataTable.Show | src/components/common/DataTable.tsx:121-139 | the spinner exactly while loading, else the error exactly when it is non-empty, else the rows |
| DataTable.DefaultCell | src/components/common/DataTable.tsx:185-188 | a column without a renderer shows falsy values as empty text and truthy values as their `String` form |
| DataTable.FalsyCellsAreEmpty | src/components/common/DataTable.tsx:187 | 0, `false` and `null` cells show empty, while 1 and `true` show as `1` and `true` |
| DataTable.HasActionsColumn | src/components/common/DataTable.tsx:171-173 | the Actions column exists exactly when there is at least one action |
| DataTable.PlaceholderColSpans | src/components/common/DataTable.tsx:212-223 | the "no data" row appears exactly when there are no rows |
| DataTable.PlaceholderSpansHeader | src/components/common/DataTable.tsx:215 | the placeholder cell spans every header cell, the Actions column included |
| DataTable.PaginationCount | src/components/common/DataTable.tsx:231 | the pagination count is the total when it is given and non-zero, the number of rows otherwise |
| DataTable.ShowsPagination | src/components/common/DataTable.tsx:228 | the pagination bar is shown exactly when a page or rows-per-page handler is given |
| DataTable.FormatStatus | src/components/common/DataTable.tsx:260-283 | the four known statuses get their Spanish label and any other status shows as itself; a non-empty caller colour wins and an empty one gives `default`; a known status without a caller colour gets its own default colour (warning, success, error, info), an unknown one gets `default` |
| EventTable.KeptIff | src/components/EventTable.tsx:57-67 | an event survives the search exactly when the lower-cased term occurs in its title, in its non-empty description, or in the name or city of an embedded location |
| EventTable.NumericLocationNeverMatches | src/components/EventTable.tsx:63-65 | an event whose location is a bare id is not found through its location |
| EventTable.CompareValues | src/components/EventTable.tsx:69-90 | equal values compare equal, a nullish first value goes after and a nullish second one before in both directions, two strings are collated in the sort direction, anything else compares equal |
| EventTable.NullishLast | src/components/EventTable.tsx:73-75 | missing values sort after present ones whatever the direction |
| EventTable.CompareValuesAntisymmetric | src/components/EventTable.tsx:69-90 | with a collation the comparator is antisymmetric except between `null` and `undefined` |
| EventTable.NullAndUndefinedBothAfter | src/components/EventTable.tsx:73-74 | `null` and `undefined` each compare as after the other |
| EventTable.EventOrderAntisymmetric | src/components/EventTable.tsx:69-90 | on typed events, which hold no `null`, the event comparator is antisymmetric |
| EventTable.RequestParams | src/components/EventTable.tsx:40-45 | the query asks for page + 1 of the page size, orders by the field with a `-` exactly for a descending sort, and sends the search only when it is non-empty |
| EventTable.OrderingDecodes | src/components/EventTable.tsx:43 | the ordering string gives back both the field and the direction |
| EventTable.PageRows | src/components/EventTable.tsx:232-233 | the rows as written are exactly the window of the filtered list from `page * rowsPerPage` to `page * rowsPerPage + rowsPerPage`, cut at the end of the list, and none when the window starts at or past the end |
| EventTable.LaterPagesEmpty | src/components/EventTable.tsx:232-233 | as written, every page after the first shows no rows when the server returned one page |
| EventTable.ServerPageRows | src/components/EventTable.tsx:40-48 | the rows of the server's page are the loaded, filtered events, at most one page of them |
| EventTable.ServerPageShowsAll | src/components/EventTable.tsx:40-48 | every loaded event of the server's page is shown |
| EventTable.StatusLabel | src/components/EventTable.tsx:265-266 | `scheduled` shows Programado, `completed` Completado, everything else Cancelado |
| EventTable.StatusClass | src/components/EventTable.tsx:151-162 | `scheduled`, `completed` and `cancelled` get `status-scheduled`, `status-completed` and `status-cancelled`; any other status gets no class |
| EventTable.DescriptionPreview | src/components/EventTable.tsx:246-251 | a description over 100 characters shows its first 100 followed by `...`; a shorter one shows whole |
| EventTable.LocationText | src/components/EventTable.tsx:255-262 | the location cell shows `name, city` exactly for an embedded location |
| EventTable.EventTable.constructor | src/components/EventTable.tsx:17-26 | the table starts loading, sorted by start time ascending, on the first page of 10 |
| EventTable.EventTable.LoadWith | src/components/EventTable.tsx:37-55 | a `loadEvents` closure sends the parameters it captured; success stores the events and count, failure the fixed message; loading ends either way |
| EventTable.EventTable.LoadEvents | src/components/EventTable.tsx:29-31 | run from the current render (on mount, and by the debounced search of lines 122-127), the request carries the current page, size, sort and term |
| EventTable.EventTable.FilterAndSortEvents | src/components/EventTable.tsx:57-93 | the filtered list is a permutation of the searched events, sorted by the comparator whenever `localeCompare` is a collation |
| EventTable.EventTable.HandleSort | src/components/EventTable.tsx:95-102 | the field becomes the sort field, descending exactly when it was ascending, back on the first page; the `loadEvents` it calls sends the old page and sort, and its response is stored |
| EventTable.EventTable.HandleChangePage | src/components/EventTable.tsx:104-107 | the page changes and nothing else of the query; the `loadEvents` it calls asks for the old page, and its response is stored |
| EventTable.PageChangeAsksOldPage | src/components/EventTable.tsx:104-107 | a change from one page to another asks the server for the old page's number, never for the new page |
| EventTable.EventTable.HandleChangePageFresh | src/components/EventTable.tsx:104-107 | the corrected page change requests the new page, number `newPage + 1` |
| EventTable.EventTable.HandleChangeRowsPerPage | src/components/EventTable.tsx:109-114 | the page size changes and the table returns to the first page; the request still carries the old page and size, and its response is stored |
| EventTable.EventTable.HandleSearch | src/components/EventTable.tsx:116-119 | the term changes and the table returns to the first page |
| EventTable.EventTable.HandleDelete | src/components/EventTable.tsx:129-140 | the request is made exactly after confirmation, and only a successful one removes the events with that id |
| EventTable.EventTable.Render | src/components/EventTable.tsx:164-170 | the loading text while loading, else the error when there is one, else the rows `PageRows` gives for the current page, as lines 232-233 slice them |
| EventTable.DeleteRemovesExactly | src/components/EventTable.tsx:134 | a successful delete keeps exactly the events with another id |
| EventsPage.LocationOptions | src/pages/Events.tsx:202-205 | one option per loaded location, in order, valued by its id and labelled `name, city` |
| EventsPage.RepertoireOptions | src/pages/Events.tsx:211-214 | one option per loaded repertoire, in order, valued by its id and labelled with its name |
| EventsPage.FieldsWithOptions | src/pages/Events.tsx:198-218 | the location and repertoire selects get the loaded options and every other field stays as declared, in order |
| EventsPage.CreateDefaults | src/pages/Events.tsx:132-143 | a new event starts with empty title and description, type OTHER, status DRAFT, not public, no attendees |
| EventsPage.DefaultsAreOptions | src/pages/Events.tsx:13-37 | the default type and status are options of their selects |
| EventsPage.EditForm | src/pages/Events.tsx:145-153 | editing starts from the event with a falsy location or repertoire id as `null` and every other member kept |
| EventsPage.Payload | src/pages/Events.tsx:172-176 | the save payload turns a falsy location or repertoire id into `undefined` and copies every other key |
| EventsPage.EditThenSave | src/pages/Events.tsx:145-176 | editing and saving at once sends the event's members back, with an id of 0 left out |
| EventsPage.EventTypeCell | src/pages/Events.tsx:55-64 | a known type shows its Spanish name and anything else shows as it is |
| EventsPage.LocationCell | src/pages/Events.tsx:75-80 | an embedded location shows `name, city`; a missing or scalar one shows `-` |
| EventsPage.EventsQuery | src/pages/Events.tsx:115 | the query asks for page + 1 with the page size |
| EventsPage.Load | src/pages/Events.tsx:111-130 | the three lists load together or not at all: events with their count, locations and repertoires, each `results` of its envelope |
| Pages.Member | src/pages/Locations.tsx:88-89 | reading a member of a response throws exactly on `null` or `undefined` and gives the member of an object |
| Pages.AsRecords | src/pages/Locations.tsx:88 | a list is accepted as rows exactly when every element is a record, and keeps its elements in order |
| Pages.ListRows | src/pages/Locations.tsx:88 | a bare list is the rows; otherwise the rows are a truthy `results`, or none |
| Pages.EnvelopeRows | src/pages/Events.tsx:120 | the events rows are `results`, or none when it is falsy or the body is not an object |
| Pages.EnvelopeCount | src/pages/Events.tsx:121 | the count is the numeric `count`, and 0 when it is falsy |
| Pages.ListCount | src/pages/Locations.tsx:89 | a bare list counts its length; otherwise the count is the envelope's count |
| Pages.BareListCount | src/pages/Locations.tsx:88-89 | for a bare list the count equals the number of rows |
| Pages.BareListHasNoEnvelopeRows | src/pages/Events.tsx:120-121 | the events page shows no rows and a count of 0 for a bare list |
| Pages.FormChange | src/pages/Locations.tsx:157-159 | a form change sets the given key and keeps every other key |
| Pages.InjectOptions | src/pages/Versions.tsx:194-201 | only the field with the key gets the options; every field keeps its place and everything else |
| Pages.InjectAbsentKey | src/pages/Versions.tsx:194-201 | injecting options for a key no field has changes nothing |
| Pages.CountChip | src/pages/Repertoires.tsx:36-42 | a count chip shows the number, 0 for a falsy value, coloured only when it is positive |
| ResourcePage.EditForm | src/pages/Locations.tsx:114-118 | the locations, themes and repertoires pages edit a copy of the row; only the versions page can fail to build its record |
| ResourcePage.Payload | src/pages/Themes.tsx:113-121 | the versions and themes pages send the form itself |
| ResourcePage.PayloadKeepsKeys | src/pages/Locations.tsx:137-140 | every payload keeps every key of the form |
| ResourcePage.ErrorsDistinct | src/pages/Locations.tsx:91-151 | each page uses three different banners for load, delete and save failures |
| ResourcePage.ResourcePage.constructor | src/pages/Locations.tsx:64-77 | a page starts loading with no rows, no error, the dialog closed on an empty form, on the first page of 10 rows, without filters |
| ResourcePage.ResourcePage.LoadData | src/pages/Locations.tsx:83-96 | a successful load replaces the rows, the count and the option lists; a failed one sets the page's banner and keeps the old data; loading ends either way |
| ResourcePage.ResourcePage.HandleCreate | src/pages/Locations.tsx:98-112 | the dialog opens on the page's defaults with nothing being edited |
| ResourcePage.ResourcePage.HandleEdit | src/pages/Locations.tsx:114-118 | the row becomes the edited one and the dialog opens on the page's edit record unless building that record throws |
| ResourcePage.ResourcePage.HandleDelete | src/pages/Locations.tsx:120-131 | a declined confirmation does nothing; a confirmed delete sends the row's id and a failed one sets the page's banner |
| ResourcePage.ResourcePage.HandleSave | src/pages/Locations.tsx:133-155 | an edited row is updated under its id and a new one created, with the page's payload; success closes the dialog, failure sets the banner and keeps the dialog and the form |
| ResourcePage.ResourcePage.HandleFormChange | src/pages/Locations.tsx:157-159 | only the given key of the form changes |
| ResourcePage.ResourcePage.CloseDialog | src/pages/Locations.tsx:201 | the dialog closes and the form stays |
| ResourcePage.ResourcePage.DismissError | src/pages/Locations.tsx:165 | closing the banner clears the error and nothing else |
| ResourcePage.ResourcePage.SetPage | src/pages/Locations.tsx:189 | only the page changes |
| ResourcePage.ResourcePage.SetRowsPerPage | src/pages/Locations.tsx:190 | only the page size changes |
| ResourcePage.ResourcePage.SelectTheme | src/pages/Versions.tsx:222 | only the theme filter changes |
| ResourcePage.ResourcePage.SelectType | src/pages/Versions.tsx:238 | only the type filter changes |
| ResourcePage.ResourcePage.Fields | src/pages/Versions.tsx:193-204 | each page's dialog gets its own field list, with the loaded lists as options where the page has them |
| ResourcePage.ResourcePage.Editing | src/pages/Locations.tsx:197 | the dialog shows the edit title exactly while a row is being edited |
| LocationsPage.CreateDefaults | src/pages/Locations.tsx:98-112 | a new location starts with every text field empty and a capacity of 0 |
| LocationsPage.DefaultsCoverFields | src/pages/Locations.tsx:10-20 | every field of the form has an entry in the record it starts from |
| LocationsPage.Payload | src/pages/Locations.tsx:137-140 | the payload turns a falsy capacity into 0, keeps a truthy one and copies every other key |
| LocationsPage.PayloadCapacity | src/pages/Locations.tsx:139 | the capacity sent is always truthy or the number 0 |
| LocationsPage.CapacityCell | src/pages/Locations.tsx:39-50 | a truthy capacity shows `<n> personas` as a chip and a falsy one `-` |
| LocationsPage.ContactCell | src/pages/Locations.tsx:51-60 | the contact cell lists the truthy ones of the e-mail and the phone, in that order, joined with ` • `, or `-` when there are none |
| LocationsPage.Load | src/pages/Locations.tsx:83-96 | the rows and the count come from a bare list or from the envelope; no option lists are loaded |
| RepertoiresPage.CreateDefaults | src/pages/Repertoires.tsx:93-101 | a new repertoire starts with empty name and description and active |
| RepertoiresPage.Payload | src/pages/Repertoires.tsx:126-130 | the payload forces a version count of 0 and an empty version list and copies every other key |
| RepertoiresPage.DescriptionCell | src/pages/Repertoires.tsx:31 | a falsy description shows `-` and a non-empty one shows itself |
| RepertoiresPage.StatusCell | src/pages/Repertoires.tsx:46-55 | the chip says Activo in green exactly when `is_active` is truthy, else Inactivo |
| RepertoiresPage.Load | src/pages/Repertoires.tsx:78-91 | the rows and the count come from a bare list or from the envelope |
| ThemesPage.CreateDefaults | src/pages/Themes.tsx:83-92 | a new theme starts with its four fields empty |
| ThemesPage.DefaultsCoverFields | src/pages/Themes.tsx:10-15 | every field of the form has an entry in the record it starts from |
| ThemesPage.TonalityCell | src/pages/Themes.tsx:28-34 | a truthy tonality shows as a chip and a falsy one as `-` |
| ThemesPage.Load | src/pages/Themes.tsx:68-81 | the rows and the count come from a bare list or from the envelope |
| ThemesPage.CountIsRowsAfterUnwrap | src/pages/Themes.tsx:71-74 | since `getThemes` already unwrapped `results`, the page stores one page of rows and counts them, not the server's total |
| VersionsPage.ThemeOptions | src/pages/Versions.tsx:198-201 | one option per loaded theme, in order, valued by its id and labelled with its title |
| VersionsPage.FieldsWithOptions | src/pages/Versions.tsx:194-205 | only the theme select gets the loaded themes as options; every other field stays as declared |
| VersionsPage.ThemeIdOf | src/pages/Versions.tsx:118 | a version's theme id is the embedded theme's id, else `theme_id`; a `null` theme throws |
| VersionsPage.FilterVersions | src/pages/Versions.tsx:113-124 | the filters throw exactly when a theme is selected and some row has a `null` theme, and never add rows |
| VersionsPage.KeptIff | src/pages/Versions.tsx:116-124 | a row is kept exactly when it is of the selected theme (if any) and of the selected type (if any) |
| VersionsPage.NoFilterKeepsAll | src/pages/Versions.tsx:113-124 | with neither filter every row is kept, in order |
| VersionsPage.Load | src/pages/Versions.tsx:105-135 | versions and themes load together; the filtered versions are stored and counted by their own number, and the themes kept for the options |
| VersionsPage.CreateDefaults | src/pages/Versions.tsx:137-146 | a new version starts with empty title, theme and notes and the Standard type |
| VersionsPage.EditForm | src/pages/Versions.tsx:148-155 | editing copies the version with `theme_id` taken from an embedded theme, and throws exactly for a `null` theme |
| VersionsPage.ThemeCell | src/pages/Versions.tsx:43-53 | the theme column shows an embedded theme's title and `-` otherwise |
| FileUploadComponent.Endpoint | src/components/FileUpload.tsx:98-106 | audio, image and PDF files go to their own endpoints and every other file to the general one |
| FileUploadComponent.FileIcon | src/components/FileUpload.tsx:65-71 | the score icon exactly for a `.mscz`/`.mscx` name whose MIME type is not audio, image or PDF; the folder exactly for the remaining files |
| FileUploadComponent.MuseScoreFileRouting | src/components/FileUpload.tsx:65-106 | a MuseScore file shows the score icon and counts as a score on the upload page, but is posted to the general endpoint |
| FileUploadComponent.TableAfterAt | src/components/FileUpload.tsx:86-118 | with distinct ids, after the loop each file's id holds its own value and every other id keeps its entry or its absence |
| FileUploadComponent.UploadOutcome | src/components/FileUpload.tsx:108-116 | after an upload a file's result is `success` exactly when the server accepted it, with progress 100 then and 0 otherwise |
| FileUploadComponent.FileUpload.constructor | src/components/FileUpload.tsx:12-15 | no files, not uploading, empty progress and results |
| FileUploadComponent.FileUpload.OnDrop | src/components/FileUpload.tsx:17-27 | the dropped files, with their ids, are added after the existing ones |
| FileUploadComponent.FileUpload.RemoveFile | src/components/FileUpload.tsx:41-63 | the id leaves the list and both tables, and nothing else changes |
| FileUploadComponent.FileUpload.ClearAll | src/components/FileUpload.tsx:123-132 | the list and both tables are emptied |
| FileUploadComponent.UploadCallsAt | src/components/FileUpload.tsx:86-108 | the call made at step `i` of the loop is the upload of the `i`-th file to its type's endpoint |
| FileUploadComponent.FileUpload.UploadFiles | src/components/FileUpload.tsx:81-121 | nothing happens for an empty list; otherwise one upload per file, in order, to its type's endpoint, and the tables end as the per-file results and progress say |
| FileUploadComponent.FileUpload.UploadOne | src/components/FileUpload.tsx:87-117 | one pass posts the file to its endpoint and records its result and progress under its id |
| FormDialog.Displayed | src/components/common/FormDialog.tsx:59 | a field shows its value when that is truthy and the empty string otherwise |
| FormDialog.RenderField | src/components/common/FormDialog.tsx:58-140 | `select` becomes a dropdown of its options, `boolean` a switch checked by the truthiness of the shown value, `textarea` a multiline input of 3 rows unless a truthy row count is given, every other type a single-line input of that type with a shrunk label exactly for the two date types; each widget is disabled exactly when the field is disabled or the dialog is loading |
| FormDialog.RenderFields | src/components/common/FormDialog.tsx:156 | one widget per field, in field order |
| FormDialog.Reported | src/components/common/FormDialog.tsx:61-128 | a dropdown reports the chosen option, a switch its checked state, a number input the parsed number or 0 when parsing fails, every other input its raw text |
| FormDialog.NumberZeroDisplaysEmpty | src/components/common/FormDialog.tsx:59-127 | a number input that reads 0, or whose text does not parse, reports 0 and then displays the empty string |
| FormDialog.TypedTextDisplays | src/components/common/FormDialog.tsx:59-128 | non-empty text typed into a text-like field is what the field displays afterwards |
| FormDialog.DialogButtons | src/components/common/FormDialog.tsx:161-176 | Cancel and Save are disabled exactly while loading, and Save's caption is `Guardando...` then and `Guardar` otherwise |
| FormDialog.SaveNotGatedOnRequired | src/components/common/FormDialog.tsx:169-172 | Save stays enabled while a required field is empty: `required` (lines 106 and 129) only marks the field |
| FormDialog.ShowsError | src/components/common/FormDialog.tsx:147-153 | the error banner is shown exactly for a non-empty error string |
| ListSort.Toggle | src/components/ThemeTable.tsx:61-68 | clicking a header always makes it the sort field, and leaves the direction descending exactly when that field was already ascending |
| ListSort.ToggleTwice | src/components/ThemeDetail.tsx:67-74 | clicking the active header twice returns to the original state |
| ListSort.ToggleOtherField | src/components/ThemeTable.tsx:64-67 | clicking another header always starts ascending |
| ListSort.SortIcon | src/components/ThemeTable.tsx:76-79 | the neutral icon exactly for an inactive field, otherwise the up or down arrow for the direction |
| ListSort.AdjacentSortedAllPairs | src/components/ThemeTable.tsx:46-56 | with a transitive comparator, ordered neighbours put every pair in order |
| ListSort.SortInPlace | src/components/ThemeTable.tsx:46-56 | the sorted array is a permutation of what it held, and sorted whenever the comparator is antisymmetric on its elements |
| ListSort.FilterSorted | src/components/ThemeTable.tsx:40-59 | filter then sort: a permutation of the filter's result, never longer than the input, sorted when the comparator is antisymmetric on the kept elements |
| ListSort.SortedCopy | src/components/ThemeDetail.tsx:52-62 | sorting the filtered copy gives a permutation of it, sorted when the comparator is antisymmetric |
| ListSort.CompareValues | src/components/ThemeTable.tsx:47-55 | falsy values count as `''`; two strings compare by collation, reversed for descending; any other pair is equal |
| ListSort.CompareValuesAntisymmetric | src/components/ThemeDetail.tsx:53-61 | with a collation, swapping two values reverses a positive comparison |
| ListSort.CompareValuesReversed | src/components/ThemeTable.tsx:52 | descending order is ascending order with the sign reversed |
| ListSort.MissingSortsAsEmpty | src/components/ThemeTable.tsx:47-48 | a missing or empty value sorts exactly like the empty string |
| Js.LowerAccented | src/components/ThemeTable.tsx:42 | `toLowerCase` as modelled lowers the accented Spanish capitals: `ÓPERA` becomes `ópera` and `AÑO` becomes `año` |
| ThemeTable.AccentedTitleFound | src/components/ThemeTable.tsx:41-44 | the search lowers accented capitals: a theme titled `ÓPERA` is listed for the term `ópera` |
| ThemeTable.KeptIff | src/components/ThemeTable.tsx:41-44 | a theme is listed exactly when it is loaded and its lower-cased title, or its non-empty lower-cased artist, contains the lower-cased search term |
| ThemeTable.EmptySearchKeepsAll | src/components/ThemeTable.tsx:41-44 | the empty search keeps every loaded theme, in order |
| ThemeTable.ThemeOrderAntisymmetric | src/components/ThemeTable.tsx:46-56 | under a collation the theme comparator is antisymmetric on any list, so the sort puts it in order |
| ThemeTable.ThemeTable.constructor | src/components/ThemeTable.tsx:11-17 | starts loading with no themes, an empty search and no error, sorted by title ascending |
| ThemeTable.ThemeTable.LoadThemes | src/components/ThemeTable.tsx:27-38 | success replaces the themes; failure sets `Error al cargar los temas` and keeps them; loading ends either way |
| ThemeTable.ThemeTable.FilterAndSortThemes | src/components/ThemeTable.tsx:40-59 | the shown themes are a permutation of the matching ones, never more than the loaded ones, and in order under a collation |
| ThemeTable.ThemeTable.HandleSort | src/components/ThemeTable.tsx:61-68 | the sort state becomes the shared header toggle of the clicked field |
| ThemeTable.ThemeTable.SetSearchTerm | src/components/ThemeTable.tsx:120 | only the search term changes |
| ThemeTable.ThemeTable.Render | src/components/ThemeTable.tsx:81-100 | the loading view exactly while loading, else the error view exactly for a non-empty error, else the table |
| ThemeDetail.ShownIff | src/components/ThemeDetail.tsx:45-50 | a version is shown exactly when it is loaded, its title or notes contain the lower-cased term, and its type is the selected tab or the tab is `all` |
| ThemeDetail.UntitledNeverShown | src/components/ThemeDetail.tsx:46-47 | a version with neither title nor notes is never shown, whatever the search |
| ThemeDetail.LoadedAreTheTheme | src/components/ThemeDetail.tsx:33-35 | exactly the versions of the displayed theme are kept |
| ThemeDetail.VersionOrderAntisymmetric | src/components/ThemeDetail.tsx:52-62 | under a collation the version comparator is antisymmetric on any list |
| ThemeDetail.ThemeDetail.constructor | src/components/ThemeDetail.tsx:12-19 | starts loading with no versions, tab `all`, newest first |
| ThemeDetail.ThemeDetail.LoadVersions | src/components/ThemeDetail.tsx:29-42 | success keeps the versions of this theme; failure sets `Error al cargar las versiones` and keeps the old ones; loading ends either way |
| ThemeDetail.ThemeDetail.FilterAndSortVersions | src/components/ThemeDetail.tsx:44-65 | the shown versions are a permutation of the matching ones, never more than the loaded ones, and in order under a collation |
| ThemeDetail.ThemeDetail.HandleSort | src/components/ThemeDetail.tsx:67-74 | the sort state becomes the shared header toggle of the clicked field |
| ThemeDetail.ThemeDetail.SelectType | src/components/ThemeDetail.tsx:188 | only the selected tab changes |
| ThemeDetail.ThemeDetail.SetSearchTerm | src/components/ThemeDetail.tsx:177 | only the search term changes |
| UploadPage.GetFileType | src/pages/Upload.tsx:39-48 | audio exactly for an `audio/` MIME type, image exactly for a non-audio `image/` type, a score exactly for the remaining files that are PDF by type, contain `.pdf` in the lower-cased name or end in a score extension; other for the rest |
| UploadPage.FileTypeIgnoresCase | src/pages/Upload.tsx:44-45 | lower-casing a file's name does not change its classification |
| UploadPage.LabelsDistinct | src/pages/Upload.tsx:63-74 | the four kinds have four different labels |
| UploadPage.NewEntries | src/pages/Upload.tsx:88-96 | one entry per accepted file, in order, with its id, pending, progress 0, no error, classified by `getFileType` |
| UploadPage.KindCountsSum | src/pages/Upload.tsx:405 | the per-type counts of the summary add up to the number of queued files |
| UploadPage.StatusCountsBounded | src/pages/Upload.tsx:175-177 | the pending, completed and failed counts add up to at most the number of queued files |
| UploadPage.UploadSettlesPending | src/pages/Upload.tsx:116-165 | after an upload every entry that was pending is `success` at 100, and an entry whose id no pending entry shares is unchanged |
| UploadPage.NoPendingAfterUpload | src/pages/Upload.tsx:116-165 | nothing is left pending after an upload |
| UploadPage.StageStep | src/pages/Upload.tsx:119-120 | visiting a pending entry uploads every entry with its id; visiting any other changes nothing |
| UploadPage.UploadQueue.constructor | src/pages/Upload.tsx:85-86 | the queue starts empty and not uploading |
| UploadPage.UploadQueue.OnDrop | src/pages/Upload.tsx:88-98 | the new entries are appended after the unchanged existing ones; progress stays a multiple of ten between 0 and 100 |
| UploadPage.UploadQueue.RemoveFile | src/pages/Upload.tsx:112-114 | exactly the entries with that id go, the others keep their order |
| UploadPage.UploadQueue.ClearCompleted | src/pages/Upload.tsx:167-169 | exactly the `success` entries go |
| UploadPage.UploadQueue.ClearAll | src/pages/Upload.tsx:171-173 | the queue becomes empty |
| UploadPage.UploadQueue.UploadFiles | src/pages/Upload.tsx:116-165 | the queue becomes the snapshot with every pending entry uploaded, and the page is no longer uploading |
| UploadPage.UploadQueue.UploadOne | src/pages/Upload.tsx:124-148 | the entries with the id go through `uploading` and progress 0 to 100 and end `success` at 100; every other entry is unchanged |
| UploadPage.SetStatus | src/pages/Upload.tsx:124-128 | only the entries with the id take the new status |
| UploadPage.SetProgress | src/pages/Upload.tsx:133-137 | only the entries with the id take the new progress |
| UploadPage.SetDone | src/pages/Upload.tsx:144-148 | only the entries with the id become `success` at 100 |
| VersionList.FilteredVersions | src/components/VersionList.tsx:125-127 | every version under `all`; otherwise as many versions as the selected tab counts |
| VersionList.ShownIff | src/components/VersionList.tsx:125-127 | a version is listed exactly when it is loaded and `all` or its own type is selected |
| VersionList.DuplicateTitle | src/components/VersionList.tsx:113 | the title, or `Versión <id>` for a missing or empty one, followed by ` (Copia)` |
| VersionList.DuplicateForm | src/components/VersionList.tsx:111-115 | the appends build exactly `DuplicateBody` |
| VersionList.DuplicateLayout | src/components/VersionList.tsx:111-115 | the duplicate carries exactly theme, title, type and notes, in that order and as text: the theme id reads back as the number, the marked title, the type code, the notes or `''`; no file is copied |
| VersionList.DeleteRemovesExactly | src/components/VersionList.tsx:95 | the local delete removes exactly the versions with that id |
| VersionList.VersionList.constructor | src/components/VersionList.tsx:9-21 | starts loading on tab `all`, with no modal and no confirmation open |
| VersionList.VersionList.LoadData | src/components/VersionList.tsx:27-42 | both lists are stored only when both requests succeed; otherwise `Error al cargar los datos` is set and the lists stay; loading ends either way |
| VersionList.VersionList.HandleCreateVersion | src/components/VersionList.tsx:75-78 | the modal opens with nothing being edited |
| VersionList.VersionList.HandleEditVersion | src/components/VersionList.tsx:80-83 | the modal opens on that version |
| VersionList.VersionList.HandleDeleteVersion | src/components/VersionList.tsx:85-88 | the version becomes the target and the confirmation opens |
| VersionList.VersionList.ConfirmDelete | src/components/VersionList.tsx:90-102 | without a target nothing is requested or changed; otherwise its id is sent, and a success removes exactly the versions with it and closes the confirmation while a failure sets the error and keeps it open |
| VersionList.VersionList.HandleDuplicateVersion | src/components/VersionList.tsx:108-123 | the duplicate body is sent, and a failure sets `Error al duplicar la versión` leaving the rest of the state alone |
| VersionList.VersionList.SelectType | src/components/VersionList.tsx:172 | only the selected tab changes |
| VersionList.VersionList.CloseVersionModal | src/components/VersionList.tsx:299-305 | the modal's close hides the modal and changes nothing else; the edited version stays recorded |
| VersionList.VersionList.CancelDelete | src/components/VersionList.tsx:308-317 | cancelling hides the confirmation and changes nothing else; the target version stays recorded |
| VersionTypes.TabCount | src/components/VersionList.tsx:177-182 | a tab counts at most all versions, and `all` counts them all |
| VersionTypes.TypeTabsSum | src/components/VersionList.tsx:177-182 | the four type tabs listed at line 129 together count every version exactly once |
| VersionTypes.UnknownTabCountsNothing | src/components/VersionList.tsx:182 | a tab that is not a type code counts nothing |
| VersionTypes.TypeLabel | src/components/VersionList.tsx:54-62 | an unknown code is shown as it is |
| VersionTypes.TypeLabelsDistinct | src/components/ThemeDetail.tsx:90-99 | the labels of the four types are pairwise distinct and differ from their codes |
| VersionTypes.TypeIcon | src/components/VersionList.tsx:44-52 | an unknown code gets the note icon |
| VersionTypes.TypeColor | src/components/VersionList.tsx:64-72 | an unknown code gets grey |
| VersionTypes.TypeIconsAndColorsDistinct | src/components/VersionList.tsx:44-72 | each type has its own icon and colour, none of them the fallback |
| VersionModal.SelectedTheme | src/components/VersionModal.tsx:147 | a theme is selected exactly when the option parses to a non-zero number, and it is that number |
| VersionModal.ChosenFile | src/components/VersionModal.tsx:116 | a file is chosen exactly when the input holds at least one, and it is the first |
| VersionModal.SubmitBody | src/components/VersionModal.tsx:84-98 | the appends build exactly `Body`: the four text parts, then one part per chosen file |
| VersionModal.BodyLayout | src/components/VersionModal.tsx:84-98 | theme, title, type and notes come first as text, the theme reading back as the number; then each chosen file under its key in the order image, audio, score, and nothing else |
| VersionModal.VersionModal.constructor | src/components/VersionModal.tsx:31-41 | no theme, empty texts, type STANDARD, no files, not loading, no error |
| VersionModal.VersionModal.Open | src/components/VersionModal.tsx:45-70 | opening refills the form from the edited version, a missing title or notes as `''`, or resets it to the defaults; the files and the error are cleared |
| VersionModal.VersionModal.SelectTheme | src/components/VersionModal.tsx:144-150 | while editing the theme stays (the select is disabled); otherwise it becomes the selected theme; nothing else changes |
| VersionModal.VersionModal.SetTitle | src/components/VersionModal.tsx:182 | only the title changes |
| VersionModal.VersionModal.SetType | src/components/VersionModal.tsx:165 | only the type changes |
| VersionModal.VersionModal.SetNotes | src/components/VersionModal.tsx:192 | only the notes change |
| VersionModal.VersionModal.HandleFileChange | src/components/VersionModal.tsx:115-118 | only the named file input's file changes, to the chosen file or none |
| VersionModal.VersionModal.HandleSubmit | src/components/VersionModal.tsx:72-113 | without a theme (or theme 0) the error `Debes seleccionar un tema` is set and nothing is sent; otherwise the body goes to update under the edited id or to create, success calls `onSuccess` then `onClose`, failure shows the server's detail or the default message, and loading ends |
| VersionModal.VersionModal.SubmitCaption | src/components/VersionModal.tsx:250 | `Guardando...` while loading, otherwise `Actualizar` when editing and `Crear` when creating |
| LocationForm.DefaultLocation | src/components/LocationDialog.tsx:28-39 | the record holds exactly the core and contact keys: empty texts, Argentina, capacity 100, active |
| LocationForm.CoreDefaults | src/components/EventDetailOriginal.tsx:259-266 | the reset after creating a location holds exactly the core keys |
| LocationForm.CoreDefaultsDisplayAsDefault | src/components/EventDetailOriginal.tsx:259-266 | the two resets agree on every core field, and every contact field displays as empty in both (reset here, initial record at lines 80-91) |
| LocationForm.CapacityValue | src/components/LocationDialog.tsx:77-78 | the capacity is the parsed integer, or 0 when the text does not parse |
| LocationForm.FieldValue | src/components/LocationDialog.tsx:77-79 | a change stores the typed text, except that `capacity` stores its parsed value |
| LocationForm.DefaultsNeedAddress | src/components/LocationDialog.tsx:197 | neither reset passes the save gate, and typing a non-empty name, city and address into the defaults opens it |
| LocationForm.FindLocation | src/components/LocationSelector.tsx:37 | `find` returns the first location with the id, and nothing exactly when no location has it |
| LocationForm.FindAppended | src/components/EventDetailOriginal.tsx:253 | after appending a location with a new id, the `find` of line 143 on that id returns it |
| LocationDialog.LocationDialog.constructor | src/components/LocationDialog.tsx:28-41 | the dialog starts on the default record, not creating |
| LocationDialog.LocationDialog.HandleClose | src/components/LocationDialog.tsx:43-57 | the record returns to the defaults and the parent is told to close |
| LocationDialog.LocationDialog.HandleChange | src/components/LocationDialog.tsx:74-85 | only the changed field takes the new value |
| LocationDialog.LocationDialog.HandleCreate | src/components/LocationDialog.tsx:59-72 | the record is sent; success reports the created location, then resets and closes; failure reports nothing and keeps the typed fields; creating ends either way |
| LocationDialog.LocationDialog.SaveEnabled | src/components/LocationDialog.tsx:197 | Save is enabled exactly when not creating and name, city and address are all non-empty |
| LocationDialog.FreshDialogNeedsAddress | src/components/LocationDialog.tsx:197 | a fresh or reset dialog cannot save until a name, a city and an address are typed, and typing all three opens the gate (initial record at lines 28-39) |
| LocationSelector.HandleLocationChange | src/components/LocationSelector.tsx:35-48 | the chosen id is reported with the name, address and city of the first location having it, or with no details exactly when none has it |
| LocationSelector.HandleLocationCreated | src/components/LocationSelector.tsx:50-57 | the created location goes to the parent first and is then selected with its own details |
| LocationSelector.CreatedIsSelectable | src/components/LocationSelector.tsx:35-57 | once a location with a new id is appended, choosing it reports the same selection that creating it reported |
| LocationSelector.SelectValue | src/components/LocationSelector.tsx:72 | the select shows a non-zero id, and the empty choice for no selection or the id 0 |
| EventForm.InitialForm | src/components/EventDetail.tsx:42-67 | a new event's form has exactly the nine form keys |
| EventForm.RepertoireValue | src/components/EventDetail.tsx:76-91 | an embedded repertoire gives its id and a bare id gives itself; no repertoire or the falsy id 0 gives `null` |
| EventForm.FromEvent | src/components/EventDetailOriginal.tsx:93-110 | the loaded form has every form key plus `location_details`, and no other key |
| EventForm.InputValue | src/components/EventDetail.tsx:113-120 | a text input stores its text; a number input stores the parsed integer, or `undefined` when empty |
| EventForm.EventToSaveKeys | src/components/EventDetail.tsx:177-191 | the payload has every key `eventToSave` writes, no key beyond those and the form's own, and every form key it does not write unchanged |
| EventForm.EventToSaveCarriesTexts | src/components/EventDetail.tsx:177-178 | the form's title and description, which `eventToSave` does not write, reach the payload unchanged |
| EventForm.EventToSaveStamps | src/components/EventDetail.tsx:179-182 | the payload carries the event's id (0 when new), its creation time or now when it has none, update time now and status `scheduled` |
| EventForm.EventToSaveFields | src/components/EventDetail.tsx:183-190 | `location` defaults to 0, `repertoire` and `end_time` to `undefined`, and start time, visibility, attendee limit, notes and location details are the form's |
| EventForm.UntouchedEditKeepsIdentity | src/components/EventDetailOriginal.tsx:203-217 | saving a loaded event untouched sends back its id and title, and its location when truthy (form loaded at lines 93-110) |
| EventForm.UntouchedEditKeepsSettings | src/components/EventDetailOriginal.tsx:203-217 | it sends back the event's visibility, attendee limit and location details (form loaded at lines 93-110) |
| EventForm.UntouchedEditKeepsTimes | src/components/EventDetailOriginal.tsx:203-217 | it sends back a non-empty start time and a non-empty end time; an empty or missing end time goes as `undefined` (form loaded at lines 93-110) |
| EventForm.UntouchedEditKeepsTexts | src/components/EventDetailOriginal.tsx:203-217 | it sends back a non-empty description, and the notes with `''` for missing ones (form loaded at lines 93-110) |
| EventForm.UntouchedEditReschedules | src/components/EventDetailOriginal.tsx:203-217 | an embedded repertoire's non-zero id goes back and a missing one as `undefined`; the status matches the event's only when it was already scheduled (form loaded at lines 93-110) |
| EventForm.NewFormSavesEmptyEvent | src/components/EventDetail.tsx:177-191 | a new event saved as first shown has id 0, location 0, no repertoire or end time, starts now, is private and untitled (form of lines 42-67) |
| EventForm.SubmitCall | src/components/EventDetail.tsx:193-207 | creating always calls create; editing an event with a non-zero id calls update with that id; no call is made exactly when editing without an id |
| EventForm.DeleteTarget | src/components/EventDetail.tsx:210-222 | something is deleted exactly after confirmation of an event with a non-zero id, and it is that id |
| EventDetail.EventDetail.constructor | src/components/EventDetail.tsx:42-111 | the form is that of a new event, or the one loaded from the given event; loading, with no lists and no error |
| EventDetail.EventDetail.LoadDependencies | src/components/EventDetail.tsx:96-111 | success stores both lists; failure sets the load error and keeps them; loading ends either way |
| EventDetail.EventDetail.HandleChange | src/components/EventDetail.tsx:113-120 | only the named key changes, to the input's value (`handleInputChange`, lines 130-137, is the same) |
| EventDetail.EventDetail.HandleCheckboxChange | src/components/EventDetail.tsx:122-128 | only the named key changes, to the box's state |
| EventDetail.EventDetail.HandleDateTimeChange | src/components/EventDetail.tsx:139-146 | a picked date sets its field; a cleared picker changes nothing |
| EventDetail.EventDetail.HandleLocationChange | src/components/EventDetail.tsx:148-158 | the location and its details are set together, missing details as `undefined` |
| EventDetail.EventDetail.HandleLocationCreated | src/components/EventDetail.tsx:160-162 | the new location is appended and nothing else changes |
| EventDetail.EventDetail.HandleRepertoireChange | src/components/EventDetail.tsx:164-170 | a truthy choice is stored and a falsy one is stored as `null` |
| EventDetail.EventDetail.HandleSubmit | src/components/EventDetail.tsx:193-207 | the payload goes to the chosen call; `onSave` gets the saved event exactly when a call was made and succeeded; otherwise the save error is set; saving ends and the form stays |
| EventDetail.EventDetail.HandleDelete | src/components/EventDetail.tsx:210-222 | the delete target is the confirmed event's id; `onBack` is called exactly when the delete succeeded; a failed delete sets the error |
| EventDetail.EventDetail.RepertoireSelectValue | src/components/EventDetail.tsx:295 | the select shows the repertoire when it is truthy and the empty choice otherwise |
| EventDetailOriginal.EventDetailOriginal.constructor | src/components/EventDetailOriginal.tsx:62-112 | as `EventDetail`, with the location dialog closed on the default record |
| EventDetailOriginal.EventDetailOriginal.LoadDependencies | src/components/EventDetailOriginal.tsx:114-129 | success stores both lists; failure sets the load error; loading ends either way |
| EventDetailOriginal.EventDetailOriginal.HandleChange | src/components/EventDetailOriginal.tsx:131-138 | only the named key changes, to the input's value (`handleInputChange`, lines 180-187, is the same) |
| EventDetailOriginal.EventDetailOriginal.HandleCheckboxChange | src/components/EventDetailOriginal.tsx:172-178 | only the named key changes, to the box's state |
| EventDetailOriginal.EventDetailOriginal.HandleDateTimeChange | src/components/EventDetailOriginal.tsx:189-196 | a picked date sets its field; a cleared picker changes nothing |
| EventDetailOriginal.EventDetailOriginal.HandleLocationChange | src/components/EventDetailOriginal.tsx:141-162 | the id is stored with the details of the first loaded location having it, or `undefined`; exactly what `EventDetail` stores from the selector's report |
| EventDetailOriginal.EventDetailOriginal.HandleRepertoireChange | src/components/EventDetailOriginal.tsx:164-170 | a truthy choice is stored and a falsy one as `null` |
| EventDetailOriginal.EventDetailOriginal.HandleSubmit | src/components/EventDetailOriginal.tsx:198-234 | the same payload, call and outcome as `EventDetail` |
| EventDetailOriginal.EventDetailOriginal.HandleDelete | src/components/EventDetailOriginal.tsx:236-248 | the same target and outcome as `EventDetail` |
| EventDetailOriginal.EventDetailOriginal.SetLocationDialogOpen | src/components/EventDetailOriginal.tsx:373 | only the dialog flag changes; closing keeps what was typed (closing at line 552) |
| EventDetailOriginal.EventDetailOriginal.EditNewLocation | src/components/EventDetailOriginal.tsx:570-642 | only the edited field of the new location changes, capacity as `parseInt(text) \|\| 0` |
| EventDetailOriginal.EventDetailOriginal.HandleCreateLocation | src/components/EventDetailOriginal.tsx:250-271 | the record is sent; success appends the location, selects it by id only, closes the dialog and resets to the core defaults; failure sets `Error al crear la ubicación` and changes nothing else |
| EventDetailOriginal.EventDetailOriginal.CanSaveLocation | src/components/EventDetailOriginal.tsx:655 | the dialog's save is enabled exactly when name, city and address are non-empty |
| EventManager.EventManager.constructor | src/components/EventManager.tsx:7-8 | nothing selected and not creating, so the table is shown |
| EventManager.EventManager.HandleEventSelect | src/components/EventManager.tsx:10-13 | the chosen event is edited, not created |
| EventManager.EventManager.HandleCreateNew | src/components/EventManager.tsx:15-18 | no event is selected and an empty editor is open |
| EventManager.EventManager.HandleBack | src/components/EventManager.tsx:20-23 | nothing selected, not creating, and the table is shown |
| EventManager.EventManager.HandleSave | src/components/EventManager.tsx:25-30 | the saved event stays open, now being edited |
| EventManager.EventManager.Render | src/components/EventManager.tsx:32-48 | the editor exactly when an event is selected or one is being created, given that event and mode; otherwise the table; in a state the handlers reach, the editor edits exactly when an event is selected |
| ThemeManager.ThemeManager.constructor | src/components/ThemeManager.tsx:7 | nothing selected, so the table is shown |
| ThemeManager.ThemeManager.HandleThemeSelect | src/components/ThemeManager.tsx:9-11 | the chosen theme's detail is shown |
| ThemeManager.ThemeManager.HandleBack | src/components/ThemeManager.tsx:13-15 | the table is shown again |
| ThemeManager.ThemeManager.Render | src/components/ThemeManager.tsx:17-28 | the detail exactly when a theme is selected, and of that theme; otherwise the table |
| InstrumentList.WoodwindsAreFirstBlock | src/components/InstrumentList.tsx:14-45 | the woodwinds are exactly the thirteen first catalogue entries, in order |
| InstrumentList.BrassIsSecondBlock | src/components/InstrumentList.tsx:14-45 | the brass are exactly the ten last catalogue entries, in order |
| InstrumentList.EachInstrumentInOneSection | src/components/InstrumentList.tsx:44-45 | every catalogue entry is listed in exactly one of the two sections |
| InstrumentList.IdsDistinct | src/components/InstrumentList.tsx:14-41 | the ids the cards use as keys are pairwise distinct |
| InstrumentList.ClefIcon | src/components/InstrumentList.tsx:47 | the treble clef exactly for `SOL`, the bass clef for anything else |
| InstrumentList.ClefLabel | src/components/InstrumentList.tsx:72 | `Clave de Sol` exactly for the G clef, `Clave de Fa` exactly for the F clef |
| InstrumentList.ClefIconMatchesLabel | src/components/InstrumentList.tsx:47-72 | a card's clef icon and caption always agree |
| InstrumentList.FamilyIcon | src/components/InstrumentList.tsx:48 | the score icon exactly for `VIENTO_MADERA`, the trumpet for anything else |
| ThemeContext.InitialDarkMode | src/context/ThemeContext.tsx:25-28 | no stored item and the empty string give light mode; any other stored text gives what it parses to |
| ThemeContext.ParseStringify | src/context/ThemeContext.tsx:27-31 | the stored boolean parses back to itself, whatever JSON whitespace surrounds it |
| ThemeContext.ReloadRestores | src/context/ThemeContext.tsx:25-32 | what the provider stores is what the next mount restores |
| ThemeContext.ThemeProvider.constructor | src/context/ThemeContext.tsx:25-32 | the mode is the one restored from `darkMode`, which is written back while every other item stays |
| ThemeContext.ThemeProvider.ToggleDarkMode | src/context/ThemeContext.tsx:30-36 | the mode is negated and stored, and a reload would restore it |
| ThemeContext.ThemeProvider.CurrentTheme | src/context/ThemeContext.tsx:38 | the dark palette exactly in dark mode |
| ThemeContext.UseTheme | src/context/ThemeContext.tsx:12-18 | outside a provider it fails with `useTheme must be used within a ThemeProvider`; inside, it returns the provider's value |

## Left out

- The HTTP transport (axios), `async` ordering and concurrent requests are not modelled. Each request's outcome is an input, and handlers run one at a time to completion.
- The text of a rejected call's error is axios's own message (`Request failed with status code N`, `Network Error`). axios is not part of this model, so `Api.FailureMessage` only writes that text out.
- Rendering is not modelled: markup, styling, MUI components, icon components and `console.error` logging. Only the values the components compute for their props are modelled.
- JavaScript numbers are unbounded integers. Floating point and NaN are not modelled. `parseInt`, `parseFloat` and `Number` are abstract parsers passed as parameters, with `None` standing for NaN.
- `localeCompare` is an abstract comparison. Results sort correctly only for comparisons that reverse their sign when the arguments are swapped. Full sortedness also needs a transitive comparison (`ListSort.AdjacentSortedAllPairs`).
- ListSort.SortInPlace: it models `Array.prototype.sort` as a stable insertion sort. No particular engine's algorithm is modelled.
- `Date` is not modelled. `new Date().toISOString()` is the string parameter `now`, and a date picker's value is its ISO string.
- The random ids of `Math.random` are inputs of the drop handlers.
- The `setTimeout` delays of the upload simulation are not modelled.
- UploadPage.UploadQueue.UploadFiles: the upload is simulated in the source, so its `catch` branch (status `error`) is unreachable and is not modelled. The file-type and status icons and `formatFileSize` (logarithms and floating point) are left out.
- FileUploadComponent.FileUpload.UploadFiles: the simulated progress timer is not modelled. In the source it is cleared only on success, so a failed file's progress keeps climbing towards 90. The model gives a failed file progress 0. Object-URL previews and `formatFileSize` are left out.
- Api.ApiService.GetCurrentUser: it parses only user texts of the shape `login` writes. Other JSON user texts read as an error rather than as another object.
- Pages.ListCount: a `count` that is not a number reads as a failed load.
- ThemeContext.ThemeProvider.constructor: it requires the stored `darkMode` item to be absent, empty or a JSON boolean. Other stored text makes `JSON.parse` throw, or yields a non-boolean mode; neither case is modelled.
- The palettes of `src/theme.ts` are not part of this model beyond their names (`ThemeContext.Palette`).
- `LocationSelector` is not fully modelled. Its `dialogOpen` flag and menu item captions are left out, and its contract covers only what it reports to its parent.
- Js.Lower: it lowers `A`-`Z` and the Latin-1 capitals `À`-`Þ`, which covers Spanish text. Capitals beyond Latin-1 (Latin Extended, Greek, Cyrillic) are kept as they are, where `toLowerCase` maps them, and the two-character lower case of `İ` is not modelled.
- EventTable.KeptIff: it inherits the Latin-1 limit of `Js.Lower`. A term that matches only when a capital beyond Latin-1 (such as `Ł`, `Σ` or `Д`) is lowered is not found, though `toLowerCase` would find it.
- ThemeTable.KeptIff: it has the same Latin-1 limit as `EventTable.KeptIff`, for titles and artists.
- ThemeDetail.ShownIff: it has the same Latin-1 limit as `EventTable.KeptIff`, for titles and notes.
- EventTable.DescriptionPreview: it counts and cuts Unicode code points, but `length` and `substring(0, 100)` count UTF-16 code units. A description with characters beyond U+FFFF, such as emoji, is therefore measured and cut later than in the source. When the 100th unit is the first half of such a character, the source ends the preview with a lone surrogate, which a Dafny string cannot hold.
- Strings are sequences of Unicode code points everywhere else, too. No other member measures or cuts text by position.
- The heading and Save caption of the event editors (`EventForm.Heading`, `EventForm.SaveCaption`) are modelled as plain functions without contracts.
- EventTable.EventTable.FilterAndSortEvents: it models events as typed records, which have no `null` members. Rows that mix `null` and `undefined` in the sort field are not covered. The source's comparator puts each of those after the other, so it cannot order them consistently (`EventTable.NullAndUndefinedBothAfter`).

## Findings

| source | as written | input that shows it | evidently intended | confidence | as-written member | corrected member |
|---|---|---|---|---|---|---|
| src/components/EventTable.tsx:232-233 | the events the server returned for page `page + 1`, `page_size` at a time, are sliced again locally at `page * rowsPerPage` | page 1, rows per page 10, and a server that returns a page of 10 events (the stale request of the next row asks for page 1, so the server's first page; the slice is empty either way): the slice starts at 10 and shows no rows | show the server's page as it came, filtered and sorted | not executed | EventTable.LaterPagesEmpty | EventTable.ServerPageShowsAll |
| src/components/EventTable.tsx:104-107 | `handleChangePage`, like `handleSort` and `handleChangeRowsPerPage`, calls `loadEvents` right after its `setPage`; that `loadEvents` reads the page of the render it was created in | on page 0, choosing page index 1 sends `page: 1`, the old page's number, instead of `page: 2` | request the new page, for example from an effect on `page`, `rowsPerPage` and the sort | not executed | EventTable.PageChangeAsksOldPage | EventTable.EventTable.HandleChangePageFresh |
