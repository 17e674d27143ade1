# AliExpress affiliate catalogue — a Dafny model

This project models the core of a browser catalogue manager for affiliate
products. An admin uploads a spreadsheet of products. The upload handler
refuses bad files and drops rows whose `ProductId` is already in the catalogue.
It appends the rest to the catalogue. The `useProducts` hook keeps the list in
memory and mirrors every change to the `aliexpress-products` key of
localStorage. Six interchangeable storage backends offer get, save, add,
delete and clear over that key:

- local only (`basicStorage`);
- a hosted JSON bin (`cloudStorage`);
- a JSON file in a Git repository (`githubStorage`);
- a static file (`fileStorage`);
- an echo service (`instantStorage`);
- a local-first store with remote sync (`simpleStorage`).

The backends read in three different ways:

- The cloud, Git-file and static-file backends read the remote first. They
  fall back to the local copy when the remote call fails.
- The echo backend reads the local copy first and then fetches. It returns
  and stores the remote list when the fetch gives an array. Otherwise it
  returns the local list it read before.
- The local-only and local-first backends never read the remote. The
  local-first backend only pushes copies to a remote bin: on save, and on
  every read of a non-empty list that starts while no sync is running.

Modules, one per source file, plus three shared ones:

- `Records` (records.dfy): a product record is a map from property name to
  cell value. `IdOf` reads `p.ProductId`, and `None` stands for `undefined`.
  The generic `Filter` models `Array.prototype.filter`. `Without` models
  `filter(p => p.ProductId !== id)`, the delete that every component uses.
- `LocalStore` (local_storage.dfy): localStorage is modelled as a class whose
  `entries` map from key to stored text. `ParseSaved` reads the products key
  and lets a parse error escape. `SavedOrEmpty` is the same read with the
  error caught, giving `[]`.
- `Http` (http.dfy): `Reply<B>` is what a `fetch` produces. Either the fetch
  rejects (`NetworkError`), or a response arrives with a status and a JSON
  body. The body is `None` when `response.json()` rejects.
- `AdminPanel`, `App`, `BasicStorage`, `CloudStorage`, `GitHubStorage`,
  `FileStorage`, `InstantStorage`, `SimpleStorage`: one module per source file.

Every remote call is an input. Each backend operation takes the replies it
would receive and a `LocalStorage` object it may change. Its contract states
what the products key holds afterwards and what the call returns. An
operation that can reject returns a `Load` value, either `Loaded(items)` or
`Throws`. The add, delete and clear operations are methods that call the get
and save methods, as the source does.

Four things about the code shape the model:

- The hook calls no backend. It sets its list first, and an effect then
  copies the list to localStorage (src/App.js:20-42).
- None of the modelled files picks a backend. Each backend is modelled on its
  own.
- An upload checks ids only against the existing catalogue, never within the
  uploaded batch. So the merged list has distinct ids only when both inputs
  already had them (`AdminPanel.UploadKeepsIdsDistinct`,
  `AdminPanel.BatchDuplicatesSurvive`).
- `btoa` throws on any character above U+00FF. A catalogue holding such a
  character is therefore never sent to the Git repository. It is saved only
  locally, and the save reports failure (`GitHubStorage.EuroSignIsNotEncodable`).

## Model

| member | source | states |
|---|---|---|
| `Records.Filter` | src/components/AdminPanel.js:41 | the result keeps exactly the elements that satisfy the predicate and is never longer than the input |
| `Records.FilterAppend` | src/components/AdminPanel.js:41 | filtering distributes over concatenation, so kept elements keep their relative order |
| `Records.FilterKeepsDistinct` | src/components/AdminPanel.js:41 | filtering a list whose ids are distinct leaves ids distinct |
| `Records.DistinctAppend` | src/components/AdminPanel.js:82 | two id-distinct lists with disjoint id sets concatenate to an id-distinct list |
| `Records.Without` | src/components/AdminPanel.js:99-101 | deleting an id keeps exactly the records with another id, never lengthens the list, removes every record with that id, and leaves the list unchanged when the id is absent |
| `Records.WithoutAppend` | src/components/AdminPanel.js:100 | deleting from a concatenation deletes from each part, so the order of the rest is kept |
| `Records.WithoutIdempotent` | src/App.js:36-38 | deleting the same id twice gives the same list as deleting it once |
| `Records.WithoutKeepsDistinct` | src/App.js:36-38 | deleting from an id-distinct list keeps it id-distinct |
| `LocalStore.LocalStorage.SetItem` | src/services/basicStorage.js:18 | the written key holds the new value and every other key keeps its entry |
| `LocalStore.ParseSaved` | src/services/basicStorage.js:7-8 | an absent key reads as empty; the read throws exactly when the stored text is non-empty and is not a serialised list; a serialised list reads back as that list |
| `LocalStore.SavedOrEmpty` | src/services/basicStorage.js:6-12 | the stored list when the key holds a serialised list, and the empty list in every other case |
| `LocalStore.ReadBackAfterWrite` | src/services/basicStorage.js:5-20 | a list written under the products key reads back equal, with or without the parse error caught |
| `LocalStore.CaughtParseErrorIsEmpty` | src/services/basicStorage.js:9-12 | a stored text that does not parse reads as the empty list when the error is caught |
| `AdminPanel.IsExcelName` | src/components/AdminPanel.js:49 | a name passes iff its last five characters lower-case to ".xlsx" or its last four lower-case to ".xls" |
| `AdminPanel.DeduplicateProducts` | src/components/AdminPanel.js:39-43 | the result holds exactly the incoming rows whose id is not an existing id, and its ids are disjoint from the existing ids |
| `AdminPanel.MissingColumnsOf` | src/components/AdminPanel.js:64-66 | a column is reported missing iff it is required and absent from the first row |
| `AdminPanel.HandleFileUpload` | src/components/AdminPanel.js:45-97 | no file ends the upload at once; a wrong extension is refused iff the name fails the test; column and duplicate outcomes arise only from a non-empty sheet, and columns are refused iff the first row misses some, listing them; a success reports between one and all rows, keeps the catalogue as an unchanged prefix and appends only sheet rows with ids outside the catalogue |
| `AdminPanel.ExcelNameIgnoresCase` | src/components/AdminPanel.js:49 | the extension test gives the same answer on the lower-cased name |
| `AdminPanel.UploadRejectsOtherFiles` | src/components/AdminPanel.js:49-52 | a name ending in neither .xlsx nor .xls is refused and no update is made |
| `AdminPanel.UploadRejectsEmptyData` | src/components/AdminPanel.js:58-61 | parsed data that is not an array, or is empty, is refused |
| `AdminPanel.UploadChecksFirstRowOnly` | src/components/AdminPanel.js:64-71 | a first row that lacks required columns refuses the batch with those columns, whatever the later rows hold |
| `AdminPanel.EmptyRowMissesAll` | src/components/AdminPanel.js:64-66 | a first row with no columns reports all four required columns, in the required order |
| `AdminPanel.UploadOfKnownIdsAddsNothing` | src/components/AdminPanel.js:74-79 | a batch whose ids all exist ends as "no new products" and no update is made |
| `AdminPanel.UploadAppendsNewRows` | src/components/AdminPanel.js:81-85 | on success the existing products form an unchanged prefix, the deduplicated rows follow, none repeats an existing id, and the count reported is the number appended (positive) |
| `AdminPanel.UploadKeepsIdsDistinct` | src/components/AdminPanel.js:74-83 | the merged list has distinct ids when the catalogue and the batch each had distinct ids |
| `AdminPanel.BatchDuplicatesSurvive` | src/components/AdminPanel.js:40-41 | two rows that share a new id both survive deduplication, so the merged ids are not distinct |
| `AdminPanel.UploadScenario` | src/components/AdminPanel.js:45-85 | catalogue [A], upload [A with another description, B]: result [original A, B], one new product |
| `AdminPanel.DeleteScenario` | src/components/AdminPanel.js:99-101 | deleting B from [A, B] leaves [A] |
| `App.ProductsHook.constructor` | src/App.js:8-26 | the initial list is the saved list, or empty when the key is absent or does not parse, and the effect then stores it |
| `App.ProductsHook.SaveEffect` | src/App.js:20-26 | the products key holds the in-memory list and no other key changes |
| `App.ProductsHook.UpdateProducts` | src/App.js:28-30 | the list is replaced wholesale and mirrored |
| `App.ProductsHook.AddProduct` | src/App.js:32-34 | exactly one element is appended, the prefix is unchanged, and the list is mirrored |
| `App.ProductsHook.DeleteProduct` | src/App.js:36-38 | the records with another id are kept in order, the list never grows, an absent id changes nothing, and the list is mirrored |
| `App.ProductsHook.ClearAllProducts` | src/App.js:40-42 | the list is empty and mirrored |
| `App.ReloadRestoresProducts` | src/App.js:11-12 | a reload reads back the list the effect stored |
| `BasicStorage.GetBasicProducts` | src/services/basicStorage.js:5-13 | returns the stored list, or empty when the key is absent or its text does not parse |
| `BasicStorage.SaveBasicProducts` | src/services/basicStorage.js:16-24 | overwrites the products key with exactly the argument, which then reads back, and returns true |
| `BasicStorage.AddBasicProduct` | src/services/basicStorage.js:27-36 | stores the old list with the product appended |
| `BasicStorage.DeleteBasicProduct` | src/services/basicStorage.js:39-48 | stores the old list without the id; a missing id leaves the contents as they were and still returns true |
| `BasicStorage.ClearBasicProducts` | src/services/basicStorage.js:51-58 | stores the empty list |
| `BasicStorage.ExportProducts` | src/services/basicStorage.js:61-64 | the exported document is the stored list as a JSON array |
| `BasicStorage.ImportProducts` | src/services/basicStorage.js:80-92 | an array replaces the stored list and returns true; anything else returns false and leaves storage untouched |
| `BasicStorage.ExportThenImportRestores` | src/services/basicStorage.js:82-85 | importing the exported document restores the same stored list |
| `BasicStorage.ImportReplaces` | src/services/basicStorage.js:84-85 | the list after an import does not depend on the list before it |
| `CloudStorage.GetCloudProducts` | src/services/cloudStorage.js:9-35 | a 404 gives empty without reading local storage; an ok reply gives `record`, or empty when absent; any other failure falls back to the stored list |
| `CloudStorage.SaveCloudProducts` | src/services/cloudStorage.js:38-63 | the PUT always carries the saved list, the products key holds it whatever the PUT did, and the result is true iff the PUT was ok |
| `CloudStorage.AddCloudProduct` | src/services/cloudStorage.js:66-75 | sends and stores the read list plus the product; a rejected read returns false, sends nothing and changes nothing |
| `CloudStorage.DeleteCloudProduct` | src/services/cloudStorage.js:78-87 | sends and stores the read list without the id; a rejected read returns false, sends nothing and changes nothing |
| `CloudStorage.ClearCloudProducts` | src/services/cloudStorage.js:90-97 | sends and stores the empty list; true iff the PUT was ok |
| `CloudStorage.SavedBinReadsBack` | src/services/cloudStorage.js:27-28 | an ok read of the bin a save wrote returns the list that save sent, whatever local storage holds |
| `CloudStorage.OutageReadsLastSave` | src/services/cloudStorage.js:29-33 | with the remote failing with anything but a 404, a read after a save returns the list that save wrote |
| `CloudStorage.NotFoundIgnoresLocal` | src/services/cloudStorage.js:19-23 | a 404 reads as empty whatever local storage holds |
| `GitHubStorage.Btoa` | src/services/githubStorage.js:69 | the definition of `btoa` on the serialised list: it succeeds iff every character is at most U+00FF, and the encoded text carries the list (its properties are `AtobInvertsBtoa` and `EuroSignIsNotEncodable`) |
| `GitHubStorage.Atob` | src/services/githubStorage.js:34-35 | decoding fails only on garbled text, and re-encoding a decoded list gives back the same content |
| `GitHubStorage.ShaToSend` | src/services/githubStorage.js:57-79 | a failed or unreachable preliminary GET sends no sha and does not stop the save; a sent sha is the non-empty sha of an ok GET, and an ok GET with a non-empty sha always has it sent |
| `GitHubStorage.AtobInvertsBtoa` | src/services/githubStorage.js:69 | decoding inverts the encoding for every list `btoa` accepts |
| `GitHubStorage.EuroSignIsNotEncodable` | src/services/githubStorage.js:69 | a list with a character above U+00FF cannot be encoded |
| `GitHubStorage.GetGitHubProducts` | src/services/githubStorage.js:10-42 | a 404 gives empty; an ok reply gives the decoded file; any other failure falls back to the stored list |
| `GitHubStorage.SaveGitHubProducts` | src/services/githubStorage.js:45-104 | the PUT body carries the encoded list and carries a sha only when the preliminary GET succeeded with one; a failed GET does not stop the save; the products key holds the list on every path; true iff a PUT was sent and was ok |
| `GitHubStorage.AddGitHubProduct` | src/services/githubStorage.js:107-116 | saves the read list plus the product; the PUT is sent iff that list is Latin-1, with the probe's sha and the commit message; a rejected read returns false and sends nothing |
| `GitHubStorage.DeleteGitHubProduct` | src/services/githubStorage.js:119-128 | saves the read list without the id; the PUT is sent iff that list is Latin-1, with the probe's sha and the commit message; a rejected read returns false and sends nothing |
| `GitHubStorage.ClearGitHubProducts` | src/services/githubStorage.js:131-138 | saves and always sends the empty list, with the probe's sha and the commit message; true iff the PUT was ok |
| `GitHubStorage.SavedFileReadsBack` | src/services/githubStorage.js:33-35 | an ok read of a file written by save returns the saved list |
| `GitHubStorage.OutageReadsLastSave` | src/services/githubStorage.js:36-41 | with the repository failing with anything but a 404, a read after a save returns the list that save wrote |
| `FileStorage.GetFileProducts` | src/services/fileStorage.js:7-21 | an ok read gives the file if it is an array, else empty; a failed read falls back to the stored list |
| `FileStorage.SaveFileProducts` | src/services/fileStorage.js:24-38 | writes only the products key and returns true |
| `FileStorage.AddFileProduct` | src/services/fileStorage.js:41-50 | stores the read list plus the product; a rejected read returns false and changes nothing |
| `FileStorage.DeleteFileProduct` | src/services/fileStorage.js:53-62 | stores the read list without the id |
| `FileStorage.ClearFileProducts` | src/services/fileStorage.js:65-72 | stores the empty list |
| `FileStorage.AddStartsFromServedFile` | src/services/fileStorage.js:41-45 | when the file is served, an add starts from its contents, not from the local list |
| `FileStorage.OutageReadsLastSave` | src/services/fileStorage.js:15-20 | with the file unreachable, a read returns what the last save stored |
| `InstantStorage.GetInstantProducts` | src/services/instantStorage.js:7-33 | a remote array overwrites the products key and is returned; otherwise the list read before the fetch is returned and nothing changes; an unparsable stored text gives empty |
| `InstantStorage.SaveInstantProducts` | src/services/instantStorage.js:36-59 | writes the products key before the POST and returns true whatever the POST does |
| `InstantStorage.AddInstantProduct` | src/services/instantStorage.js:62-71 | stores the read list plus the product |
| `InstantStorage.DeleteInstantProduct` | src/services/instantStorage.js:74-83 | stores the read list without the id; a missing id keeps it as read |
| `InstantStorage.ClearInstantProducts` | src/services/instantStorage.js:86-93 | stores the empty list |
| `InstantStorage.ReadLeavesWhatItReturns` | src/services/instantStorage.js:15-28 | when the stored text parses, after a read the products key holds exactly the list the read returned |
| `SimpleStorage.SyncEffect` | src/services/simpleStorage.js:71-78 | a sync changes no key but the bin id key, and a non-ok reply changes nothing |
| `SimpleStorage.SyncToOnlineStorage` | src/services/simpleStorage.js:56-79 | failures are swallowed; the bin id is written only on an ok reply that carries metadata |
| `SimpleStorage.SimpleStore.constructor` | src/services/simpleStorage.js:7 | the flag starts false |
| `SimpleStorage.SimpleStore.GetSimpleProducts` | src/services/simpleStorage.js:10-33 | always returns the local list or empty; syncs only a non-empty list when no sync is in progress; the flag is restored on return |
| `SimpleStorage.SimpleStore.SaveSimpleProducts` | src/services/simpleStorage.js:36-53 | writes the products key first, then syncs, and returns true whatever the sync does |
| `SimpleStorage.SimpleStore.AddSimpleProduct` | src/services/simpleStorage.js:82-91 | stores the local list plus the product |
| `SimpleStorage.SimpleStore.DeleteSimpleProduct` | src/services/simpleStorage.js:94-103 | stores the local list without the id |
| `SimpleStorage.SimpleStore.ClearSimpleProducts` | src/services/simpleStorage.js:106-113 | stores the empty list |
| `SimpleStorage.ReadKeepsStoredList` | src/services/simpleStorage.js:10-28 | a read never changes the stored list |
| `SimpleStorage.EmptyListIsNotSynced` | src/services/simpleStorage.js:17 | an empty catalogue is never synced on read |

## Left out

- `parseXLSXFile` (FileReader and the `xlsx` library) is foreign code. Its result is an input: the sheet's rows, an unreadable file, or a non-array.
- Notifications, the `isUploading` flag, the file-input reset, drag and drop, routing, `Navigation` and all rendering are UI.
- src/components/ProductCard.js is left out. It is floating-point price and discount formatting.
- src/services/firebaseService.js is not part of this model. It is a thin wrapper over a database SDK and its push subscriptions.
- Requests are not modelled: URLs, headers, API keys and the empty `GITHUB_TOKEN` that never adds a header. Only each reply is an input.
- The POST bodies of the echo and sync backends are not modelled, because no modelled read gets them back. The cloud PUT body and the Git PUT body are modelled as the `sent` results.
- The backends' remote stores are not modelled as state. A read after a save is related to that save only by a lemma (`CloudStorage.SavedBinReadsBack`, `GitHubStorage.SavedFileReadsBack`) that takes the saved list as the reply's body.
- The `Blob` download of `exportProducts` and the reading of the import file are browser I/O. The model keeps only the serialised document and the parsed file.
- JSON and base64 are not implemented. `Catalogue(xs)`, `JArray(xs)` and `Encoded(xs)` each stand for the text that serialises `xs`, and reading that text gives `xs` back. Stored text that parses as JSON but is not an array is not modelled. Any stored text other than a serialised list is treated as failing `JSON.parse`.
- Cloud `record` values that are truthy but not arrays are not modelled. `record` is either a list or absent.
- JSON values are modelled more narrowly than the source accepts. `Records.Cell` holds only text, numbers and booleans. A record is a flat object. `Records.JsonValue` and `GitHubStorage.Base64` hold only arrays of such records. So the model does not cover lists the source accepts or stores as they are: `null` or nested field values, and array elements that are not objects. Such lists pass `Array.isArray` in src/services/basicStorage.js:84, src/services/fileStorage.js:14 and src/services/instantStorage.js:18.
- `GitHubStorage.GetGitHubProducts` does not model a Git file whose JSON parses to something other than an array. The source returns that value as it is (src/services/githubStorage.js:35). The model reads every decodable file as a list.
- `localStorage.setItem` failures, such as an exceeded quota, are not modelled. Every write succeeds.
- Interleaving of concurrent calls at `await` points is not modelled. The model is sequential, so the `syncInProgress` flag is only ever seen true when a caller sets it that way.
- `AdminPanel.ToLower` lower-cases ASCII letters only. No other character lower-cases to one of `.xlsx`, so the extension test gives the same answer as with full Unicode case mapping.
- Numeric `ProductId` values are reals. NaN, which `!==` never equates with itself, is not modelled.
- The commit message time (`new Date().toISOString()`) is the input `now`.
