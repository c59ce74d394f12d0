# Screening tool: a Dafny model of its record collections and page rules

The Screening tool is a single-user browser application. Compliance staff use it to keep
five record collections and to compare customers against restricted parties (RPL):

- customers;
- restricted parties;
- Zyme entries;
- General comments;
- APRV comments.

This project models the part of the application that has logic in it:

- **The data provider** (`DataContext`). A class holds the five collections, a keyed store
  (IndexedDB: one array per object store under the key `"root"`) and the legacy flat store
  (localStorage, JSON text). It covers:
  - the start-up load chain;
  - the write-back of every changed collection;
  - add, update, delete and bulk delete;
  - the five bulk imports, which deduplicate on id, on comment text or on APRV title.
- **The pure updaters** behind the provider (`Collections`).
- **The entity pages**, customers and RPL (`EntityPages`). They cover:
  - the duplicate detector, which is a loop over `seen`/`duplicateKeys` sets;
  - the search filter;
  - save (update or add);
  - upload row filtering;
  - bulk delete;
  - selection.
- **The settings page** (`Settings`). It covers:
  - the backup sheet list;
  - the restore routing and its processed-row count;
  - the Zyme upload and the manual Zyme add;
  - the reset.
- **The comparator on the home page** (`Home`): top-five dropdowns, the two exact comment
  templates, and the coupling between searching and selecting.
- **The country lookup** (`Countries`), the **table selection rules** (`DataTable`) and the
  **Zyme name search** (`Zyme`).
- **Sign-in** (`Auth`), against a fixed allow-list, with its mirrored `auth_user` entry.
- **The add forms** of the comment pages (`CommentPages`).
- **The screening assistant page** (`Copilot`): the search guard, the extraction of distinct
  links and of a one-sentence summary, and the save with an enriched address.

`Types`, `Seqs` and `Strings` hold the records and the generic sequence and string
functions. JavaScript's `filter`, `trim`, `toLowerCase`, `includes`, `split` and
`new Set` are among them.

Modelling conventions:

- A missing optional string is `""`, so a JavaScript truthiness test on it is `!= ""`.
- Random ids (`Math.random().toString(36)…`) are parameters.
  - A single add takes `newId`.
  - A bulk import takes an oracle `gen: nat -> string`. An entity import indexes it by
    position in the incoming batch, because the ids are filled in before the filter. A
    comment import indexes it by position among the survivors, because the filter runs first.
- Confirmation dialogs are a `confirmed: bool` parameter.
- The assistant's answer is a `SearchResponse` parameter.
- The workbook codec is taken as the identity: a read workbook is a map from sheet name to rows.

The model follows the code, including where it behaves otherwise than one might expect:

- **One `try` wraps all five load steps** (context/DataContext.tsx:49-103). One might expect
  a failed step to empty only its own collection. Instead, the first exception leaves
  that collection and every later one empty. The persistence effects then overwrite what
  the keyed store held for them (`GarbledLegacyEmptiesEverything`).
- **When IndexedDB cannot be opened, the comment collections come up empty.** Every comment
  step writes back and `dbService.set` rethrows, so they do not get their built-in defaults
  (`UnavailableStoreDropsDefaults`).
- **Importing the same batch twice is not always a no-op.** Entity rows without an id get
  a new id each time and are appended again (`ImportEntitiesReaddsIdless`). The second
  import is a no-op only when every row carries an id (`ImportEntitiesIdempotent`).
  Comment imports are always a no-op the second time (`ImportCommentsIdempotent`).
- **Entity imports do not recognise a repeated record without an id.** A batch row with no
  id that repeats an existing customer's name and address gets a fresh id and is appended
  next to it (`AcmeBatch`).
- **Comment imports reject only an empty text or title.** A text of spaces passes the
  filter, because the code tests truthiness and does not trim
  (context/DataContext.tsx:176, 200).
- **A reset does not leave the comment collections empty.** It clears both stores, and the
  reload that follows re-seeds them with their defaults (`FirstRun`).

## Model

| member | source | states |
|---|---|---|
| Collections.Append | context/DataContext.tsx:119 | `[...prev, e]` has one more element, keeps the old ones as its prefix and ends with `e` |
| Collections.UpdateAt | context/DataContext.tsx:120 | update keeps the length, replaces every entry carrying the id by the new record and leaves every other entry in place |
| Collections.UpdateAbsentId | context/DataContext.tsx:120 | updating with an id that is not present changes nothing |
| Collections.UpdateKeepsIds | context/DataContext.tsx:135 | update neither adds nor removes an id |
| Collections.Delete | context/DataContext.tsx:121 | delete keeps exactly the entries with another id, in order and with their multiplicity, and the id is gone |
| Collections.DeleteMany | context/DataContext.tsx:122 | bulk delete keeps exactly the entries whose id is not listed, in order and with their multiplicity, and no listed id remains |
| Collections.DeleteIsDeleteManyOfOne | context/DataContext.tsx:136-137 | deleting one id is the same as bulk-deleting the one-element list |
| Collections.DeleteManyAbsent | context/DataContext.tsx:137 | deleting ids that are absent changes nothing |
| Collections.DeleteComment | context/DataContext.tsx:170 | deleting a comment keeps exactly the comments with another id, in order and with their multiplicity |
| Collections.WithIds | context/DataContext.tsx:127 | a record with an id keeps it; one without gets the generator's value; no other field changes |
| Collections.ImportEntities | context/DataContext.tsx:123-131 | the old collection is an unchanged prefix; after it come exactly the incoming records (ids filled in) whose id was not already present, in incoming order and with their multiplicity (a record repeated in the batch is appended as often as it occurs) |
| Collections.ImportEntitiesIdempotent | context/DataContext.tsx:138-146 | importing a batch whose rows all carry ids a second time adds nothing, whatever ids the generator yields |
| Collections.ImportEntitiesReaddsIdless | context/DataContext.tsx:151-159 | a row without an id is appended again by a second import when its new id is unused |
| Collections.SameBatchRecordTwice | context/DataContext.tsx:126-128 | two copies of a new record in one batch are both appended: the batch is not deduplicated |
| Collections.AcmeBatch | context/DataContext.tsx:123-131 | importing id-less "Acme" and "Beta" rows into a collection holding customer "a1" Acme appends both, with fresh ids |
| Collections.Stamp | context/DataContext.tsx:177 | a stamped comment has the collection's category, keeps its own id if it has one and keeps its text, title and other fields |
| Collections.NewComments | context/DataContext.tsx:174-176 | the surviving comments are exactly the incoming ones with a non-empty key not already present, in order and with their multiplicity |
| Collections.ImportComments | context/DataContext.tsx:172-180 | the old collection is an unchanged prefix, followed by one comment per survivor of `NewComments`, in order; each keeps the survivor's text, title, additional information and remarks, takes the collection's category, and keeps the survivor's id or, lacking one, gets the generator's value for its position; every appended key is non-empty and was not present before |
| Collections.ImportCommentsIdempotent | context/DataContext.tsx:196-208 | a second import of the same comment batch adds nothing |
| Collections.ReviewedOkBatch | context/DataContext.tsx:172-180 | importing "Reviewed OK" again and "New note" next to comment c1 appends only "New note" |
| Collections.NewGeneralComment | context/DataContext.tsx:162-169 | a new General comment carries the given id and text |
| Collections.NewAprvComment | context/DataContext.tsx:183-193 | a new APRV comment carries the given id, title, approval text, additional information and remarks |
| DataContext.Provider.constructor | context/DataContext.tsx:40-44 | the provider starts loading, with five empty collections |
| DataContext.Provider.SetEntities | context/DataContext.tsx:111-113 | setting an entity collection changes only that collection; once loading is over the whole collection is written to its object store |
| DataContext.Provider.SetComments | context/DataContext.tsx:114-115 | the same for a comment collection |
| DataContext.Provider.LoadEntityList | context/DataContext.tsx:51-57 | an entity step uses the stored value as is, else the legacy array (written back only when non-empty), else `[]`; garbled legacy JSON or a write-back without a store throws |
| DataContext.Provider.LoadCommentList | context/DataContext.tsx:78-86 | a comment step uses the stored value as is, else the legacy array or the defaults, and always writes back |
| DataContext.Provider.RunEntitySteps | context/DataContext.tsx:50-75 | the three entity steps run in order and stop at the first exception |
| DataContext.Provider.RunLoadSteps | context/DataContext.tsx:49-103 | the five steps run inside one `try`; the collections end as `LoadedState` and the write-backs touch only the five object stores |
| DataContext.Provider.Load | context/DataContext.tsx:47-115 | after loading, the collections are `LoadedState` of the stores, and the keyed store holds every collection as it is in memory |
| DataContext.Provider.AddEntity | context/DataContext.tsx:149 | add appends the record to the chosen collection and persists it |
| DataContext.Provider.UpdateEntity | context/DataContext.tsx:120 | update replaces by id in the chosen collection and persists it |
| DataContext.Provider.DeleteEntity | context/DataContext.tsx:150 | delete removes the id from the chosen collection and persists it |
| DataContext.Provider.DeleteEntities | context/DataContext.tsx:137 | bulk delete removes the listed ids and persists the collection |
| DataContext.Provider.ImportEntityBatch | context/DataContext.tsx:151-159 | the collection becomes `ImportEntities` of itself and is persisted |
| DataContext.Provider.AddGeneralComment | context/DataContext.tsx:162-169 | one General comment is appended and persisted |
| DataContext.Provider.AddAprvComment | context/DataContext.tsx:183-193 | one APRV comment is appended and persisted |
| DataContext.Provider.DeleteCommentItem | context/DataContext.tsx:194 | the comment with that id is removed and the collection persisted |
| DataContext.Provider.ImportCommentBatch | context/DataContext.tsx:196-208 | the collection becomes `ImportComments` of itself and is persisted |
| DataContext.Provider.ClearStorage | services/storage.ts:67-81 | every object store is emptied (when the database can be opened) and the legacy entries are dropped; memory is untouched |
| DataContext.StoredValuesUsedAsIs | context/DataContext.tsx:51-52 | when every object store holds a value, every collection is loaded as stored |
| DataContext.FirstRun | context/DataContext.tsx:78-97 | with both stores empty, the entity collections start empty and the comments with their defaults, and the keyed store then holds exactly that |
| DataContext.LegacyCustomersMigrated | context/DataContext.tsx:52-57 | legacy customers are loaded when the keyed store has none, and the keyed store holds them afterwards |
| DataContext.GarbledLegacyEmptiesEverything | context/DataContext.tsx:49-103 | unreadable legacy customers JSON leaves all five collections empty, and the stored RPL and General lists are then overwritten with `[]` |
| DataContext.UnavailableStoreDropsDefaults | services/storage.ts:51-65 | without a usable keyed store the comment write-back throws and every collection comes up empty |
| EntityPages.Duplicates | pages/Customers.tsx:62-78 | an entry is returned exactly when its key (trimmed, lowercased name and address) occurs at least twice, with all its copies; the result is a subsequence |
| EntityPages.DuplicateIffTwin | pages/RPL.tsx:61-77 | an entry is returned exactly when an entry at another position has the same key |
| EntityPages.DuplicatesClosed | pages/Customers.tsx:66-77 | every returned entry's key occurs at least twice among the returned entries, and the duplicates of the duplicates are the duplicates |
| EntityPages.FindDuplicates | pages/Customers.tsx:62-78 | the `forEach` loop over `seen`/`duplicateKeys` followed by the filter gives exactly `Duplicates` |
| EntityPages.SearchResults | pages/Customers.tsx:82-85 | the entries whose lowercased name or address contains the lowercased query, in order and with their multiplicity |
| EntityPages.EmptyQueryShowsAll | pages/RPL.tsx:81-84 | an empty query shows the whole collection |
| EntityPages.FilteredData | pages/Customers.tsx:80-85 | the duplicates when the toggle is on, the search results (with their multiplicity) otherwise; always a subsequence |
| EntityPages.ValidRows | pages/Customers.tsx:39 | the upload keeps exactly the rows with a name and an address, in order and with their multiplicity |
| EntityPages.EntityPage.constructor | pages/Customers.tsx:13-15 | no selection, duplicates view off, empty query |
| EntityPages.EntityPage.Shown | pages/RPL.tsx:79-84 | the table shows a subsequence of the collection |
| EntityPages.EntityPage.ToggleDuplicates | pages/Customers.tsx:111 | the duplicates view flips, nothing else changes |
| EntityPages.EntityPage.SetQuery | pages/Customers.tsx:137 | the query is replaced |
| EntityPages.EntityPage.SetSelection | pages/Customers.tsx:159 | the selection is replaced by the table's list |
| EntityPages.EntityPage.HandleSave | pages/Customers.tsx:17-23 | a record with an id updates the collection, one without is appended with the new id |
| EntityPages.EntityPage.HandleUpload | pages/RPL.tsx:35-52 | the valid rows are counted and imported when there is at least one; otherwise nothing changes |
| EntityPages.EntityPage.HandleBulkDelete | pages/RPL.tsx:54-59 | on confirmation the selected ids are deleted and the selection emptied; otherwise nothing changes |
| Settings.Backup | pages/Settings.tsx:48-57 | the backup has exactly the five sheets, each holding its collection |
| Settings.RestoreRouting | pages/Settings.tsx:65-84 | each collection is imported into exactly when its sheet is present and is untouched otherwise; other sheet names are ignored |
| Settings.RestoreOwnBackupIsNoop | pages/Settings.tsx:48-84 | restoring a backup of the current collections changes nothing when every entity has an id |
| Settings.ImportOwnEntities | context/DataContext.tsx:123-131 | a collection whose entities all carry ids, imported into itself, is unchanged |
| Settings.ImportOwnComments | context/DataContext.tsx:172-180 | a comment collection imported into itself is unchanged |
| Settings.RestoreOwnBackupReaddsIdless | pages/Settings.tsx:65-68 | a customer without an id is appended again by a restore of its own backup |
| Settings.BackupCount | pages/Settings.tsx:64-86 | the count reported for a restored backup is the size of all five collections, even when nothing is added |
| Settings.ZymeRows | pages/Settings.tsx:26 | the Zyme upload keeps exactly the rows with a name, in order and with their multiplicity |
| Settings.NewZymeEntry | pages/Settings.tsx:39-46 | a manual Zyme entry holds the new id, name, address and type, and nothing else |
| Settings.SettingsPage.constructor | pages/Settings.tsx:11-16 | the page works on the given provider |
| Settings.SettingsPage.HandleZymeUpload | pages/Settings.tsx:21-37 | the rows with a name are counted and imported into Zyme when there is at least one |
| Settings.SettingsPage.HandleAddZyme | pages/Settings.tsx:39-46 | the new entry is appended to Zyme |
| Settings.SettingsPage.RestoreEntitySheet | pages/Settings.tsx:65-76 | one entity sheet is imported when present, and its row count returned; while loading or without a keyed store, neither store changes |
| Settings.SettingsPage.RestoreCommentSheet | pages/Settings.tsx:77-84 | one comment sheet is imported when present, and its row count returned; while loading or without a keyed store, neither store changes |
| Settings.SettingsPage.HandleRestore | pages/Settings.tsx:59-93 | the collections become `Restored` and the count is the rows of every recognised sheet present; while loading or without a keyed store, neither store changes |
| Settings.SettingsPage.HandleResetApp | pages/Settings.tsx:95-101 | on confirmation both stores are cleared; otherwise nothing changes |
| Home.TopMatches | pages/Home.tsx:17-23 | at most five entries, all matching the search, in collection order |
| Home.FilterThenTake | pages/Home.tsx:17-19 | filtering then keeping five is taking the first five matches while walking the list |
| Home.TopMatchesAreFirstMatches | pages/Home.tsx:21-23 | the dropdown is exactly the first five matching entries |
| Home.EmptySearchShowsFirstFive | pages/Home.tsx:17-19 | an empty search shows the first five entries |
| Home.TextsNameTheCustomerFirst | pages/Home.tsx:30-39 | both comment formats open with their fixed header, followed at once by the customer's name |
| Home.TextsEndWithTheRpl | pages/Home.tsx:30-39 | the compact text ends with `) vs RPL: N (A)` and the long one with its `RPL -`, `Name - N` and `address - A` lines and a final newline, for the chosen RPL's name N and address A |
| Home.HomePage.constructor | pages/Home.tsx:8-14 | nothing searched, nothing selected, no result, long format |
| Home.HomePage.CustomerDropdown | pages/Home.tsx:91 | the customer dropdown has at most five entries and is shown only while searching with nothing selected |
| Home.HomePage.RplDropdown | pages/Home.tsx:132 | the same for the RPL dropdown |
| Home.HomePage.Generate | pages/Home.tsx:25-42 | with both sides selected the result is the compact or long text; otherwise nothing changes |
| Home.HomePage.CopyResult | pages/Home.tsx:54-59 | the copied mark is set exactly when there is a result |
| Home.HomePage.CopiedTimeout | pages/Home.tsx:58 | the copied mark is cleared |
| Home.HomePage.SetCompactFormat | pages/Home.tsx:164 | the format checkbox sets compact mode |
| Home.HomePage.Clear | pages/Home.tsx:44-52 | both searches, both selections, the result, the copied mark and compact mode are reset |
| Home.HomePage.TypeCustomer | pages/Home.tsx:82-85 | typing sets the search and drops the selected customer |
| Home.HomePage.PickCustomer | pages/Home.tsx:96-99 | picking selects the customer, empties its search and hides its dropdown |
| Home.HomePage.TypeRpl | pages/Home.tsx:123-126 | typing sets the RPL search and drops the selected party |
| Home.HomePage.PickRpl | pages/Home.tsx:137-140 | picking selects the party, empties its search and hides its dropdown |
| Countries.FindCode | pages/Countries.tsx:16 | the position of the first country whose lowercased code equals the term, or none when no code does |
| Countries.FilteredCountries | pages/Countries.tsx:10-26 | blank term: nothing; an exact code: that first country alone; otherwise exactly the countries whose name or code contains the term, with their multiplicity; always a subsequence |
| Countries.ExactCodeAmongMatches | pages/Countries.tsx:16-25 | the exact-code answer is one of the countries the substring search would list |
| Countries.BlankTermFindsNothing | pages/Countries.tsx:11 | a term of spaces finds nothing |
| DataTable.IdsOf | components/DataTable.tsx:23 | the ids of the rows, in row order |
| DataTable.SelectAll | components/DataTable.tsx:20-28 | checking selects every row's id in order, unchecking selects none, and nothing happens without a callback |
| DataTable.SelectOne | components/DataTable.tsx:30-38 | a selected id is removed with all its copies while every other id keeps its order and its number of copies; an unselected one is appended; nothing happens without a callback |
| DataTable.ToggleTwice | components/DataTable.tsx:30-38 | toggling an unselected id twice restores the selection |
| DataTable.SelectAllChecksHeader | components/DataTable.tsx:51 | after select-all the header is checked exactly when checking a non-empty table |
| Zyme.Results | pages/Zyme.tsx:10-12 | empty search: nothing; otherwise exactly the entries whose lowercased name contains the lowercased search, in order and with their multiplicity |
| Zyme.ResultsSeeNamesOnly | pages/Zyme.tsx:11 | only names are searched: collections with the same names position by position give results of the same length with the same names position by position |
| Auth.AuthProvider.constructor | context/AuthContext.tsx:28-31 | the initial user is the stored one |
| Auth.AuthProvider.Login | context/AuthContext.tsx:41-51 | sign-in succeeds exactly when the trimmed, lowercased name is one of the four listed; the user keeps the name as typed and takes display name and role from the list; a failure changes nothing; the stored entry mirrors the user |
| Auth.AuthProvider.Logout | context/AuthContext.tsx:53-55 | no user, and the stored entry is removed |
| Auth.AuthProvider.IsAuthenticated | context/AuthContext.tsx:58 | signed in exactly when there is a user |
| Auth.NameLookupIgnoresCaseAndPadding | context/AuthContext.tsx:45 | a name typed in any capitalisation and padded with white space on either side is looked up as the plain name |
| Auth.LookupAsWritten | context/AuthContext.tsx:20-25 | `USERS[key]` finds something exactly for the four listed names and the two inherited names "constructor" and "__proto__"; a listed name yields its display name and role, an inherited one no role |
| Auth.AcceptedAsWritten | context/AuthContext.tsx:45-46 | the sign-in test as written accepts exactly the listed names and the two inherited names |
| Auth.ConstructorSignsInAsWritten | context/AuthContext.tsx:45-47 | "constructor" is not listed, yet is accepted as written, with no role |
| CommentPages.CommentsPage.constructor | pages/Comments.tsx:8 | the draft starts empty |
| CommentPages.CommentsPage.HandleAdd | pages/Comments.tsx:16-22 | a comment is added exactly when the trimmed draft is non-empty; it holds the trimmed text, which neither starts nor ends with white space, and the draft is cleared; otherwise nothing changes |
| CommentPages.AprvPage.constructor | pages/APRV.tsx:10-13 | the four drafts start empty |
| CommentPages.AprvPage.HandleAdd | pages/APRV.tsx:21-35 | an entry is added exactly when the trimmed title and approval are both non-empty; all four fields go in trimmed and the drafts are cleared; otherwise nothing changes |
| CommentPages.AprvPage.Submit | pages/APRV.tsx:24-33 | the entry is appended to the APRV collection and the four drafts cleared |
| Copilot.ChunkUris | pages/ScreeningCopilot.tsx:61-65 | the collected links are never empty |
| Copilot.ChunkUrisFrom | pages/ScreeningCopilot.tsx:63 | a link is collected exactly when it is the non-empty uri of some source |
| Copilot.CollectLinks | pages/ScreeningCopilot.tsx:60-65 | the `forEach` loop collects `ChunkUris` of the sources |
| Copilot.Unique | pages/ScreeningCopilot.tsx:66 | every link once, no repeats, a subsequence of the links, starting with the first link, and listed in the order of their first occurrences |
| Copilot.UniqueOfDistinct | pages/ScreeningCopilot.tsx:66 | links that are already distinct are kept as they are |
| Copilot.FindDescribing | pages/ScreeningCopilot.tsx:75 | the position of the first sentence that mentions "is a" or "specializes", or none when none does |
| Copilot.Candidate | pages/ScreeningCopilot.tsx:75 | the chosen sentence is one of the sentences, and it describes the business exactly when some sentence does |
| Copilot.Truncate | pages/ScreeningCopilot.tsx:76 | up to 150 characters are kept as they are; a longer sentence is cut to 150 characters and followed by "..." |
| Copilot.Summary | pages/ScreeningCopilot.tsx:72-76 | the summary has at most 153 characters |
| Copilot.SummaryHasNoMarkdown | pages/ScreeningCopilot.tsx:72 | the summary holds no `#`, `*` or backquote |
| Copilot.ShortPlainAnswerIsItsOwnSummary | pages/ScreeningCopilot.tsx:72-76 | a short answer without markdown or sentence breaks is its own summary |
| Copilot.EnrichedAddressParts | pages/ScreeningCopilot.tsx:88 | the enriched address opens with the typed address and the website label, names the link (or N/A) right after it, and ends with the summary |
| Copilot.SavedEntity | pages/ScreeningCopilot.tsx:90-96 | the saved record holds the new id, the name, the enriched address, the link and the summary |
| Copilot.CopilotPage.constructor | pages/ScreeningCopilot.tsx:11-24 | empty search, no answer, dialog closed at its first step |
| Copilot.CopilotPage.HandleSearch | pages/ScreeningCopilot.tsx:26-45 | nothing happens unless name and address are filled; an answer sets the result (or "No information found.") and its sources; a failure clears them and sets the error |
| Copilot.CopilotPage.HandleClear | pages/ScreeningCopilot.tsx:47-54 | name, address, result, sources and error are cleared and the dialog closed |
| Copilot.CopilotPage.OpenSaveModal | pages/ScreeningCopilot.tsx:58-81 | the dialog offers the distinct links, preselects the first one (or none) and proposes `Summary` of the answer |
| Copilot.CopilotPage.ChooseCategory | pages/ScreeningCopilot.tsx:301 | choosing customer or RPL moves the dialog to its second step |
| Copilot.CopilotPage.HandleConfirmSave | pages/ScreeningCopilot.tsx:83-107 | without a category nothing happens; otherwise the record is appended to customers or RPL, the dialog closes, and every other field of the page keeps its value |

## Left out

- Rendering, routing, alerts and the form modal are not modelled (JSX, `Layout`, `Login`,
  `App`, `EntityFormModal`). A confirmation dialog is the `confirmed` parameter.
- The xlsx codec is taken as the identity (`readExcelFile`, `readBackupFile`,
  `exportToExcel`). A file that fails to decode only raises an alert and changes nothing,
  so that path is not modelled.
- The assistant's network call (`searchEntity`) is an input. Its answer arrives as a
  `SearchResponse`.
- Asynchrony and effect scheduling are collapsed into one step each:
  - `loadData` runs to completion before the persistence effects;
  - every persistence effect is applied at once.
  Interleaved or lost writes are not represented.
- Random ids are not modelled. Fresh ids are parameters, and nothing assumes they are
  unique.
- The clipboard and the copy marks of the comment, APRV and Zyme pages are not modelled.
  They have no effect on data.
- `window.location.reload()` after a reset is not modelled. A reload is a new `Provider`
  loading from the cleared stores (`FirstRun`).
- `localStorage.clear()` also removes `auth_user`. The model does not connect the reset to
  the sign-in state.
- A stored `auth_user` entry is passed to the constructor already parsed.
- `INITIAL_COMMENTS`, `INITIAL_APRV_COMMENTS` and `COUNTRIES` come from constants.ts, which
  is not part of this model. They are parameters.
- `trim` and `toLowerCase` are modelled on ASCII only:
  - white space is space, tab, newline, carriage return, form feed and vertical tab;
  - letters A to Z are lowered.
  Unicode white space and case mapping are not modelled.
- The legacy store is modelled as a parsed value: an array, `null`, or text that is not
  JSON. Non-array JSON values, and an entry that is the empty string, are not modelled.
- Extra record fields and the Zyme `location` field are not modelled, because no core
  logic reads them. Entities carry id, name, address, website, business summary and type.
- Settings.Restored: its properties are stated by the `RestoreRouting` lemma rather than in
  its own contract.
- Copilot.Summary: its contract states only the length bound. The choice of sentence and
  the truncation are stated by `Candidate` and `Truncate`.
- EntityPages.DupKey: a restored row that lacks a name or an address (a restore imports its
  sheets unfiltered, pages/Settings.tsx:65-76, and the sheet reader omits empty cells) makes
  `.trim()` throw in the source, so the duplicates view fails; the model computes the key on `""`.
- EntityPages.MatchesQuery: for such a row `.toLowerCase()` throws in the source and the page
  fails; the model matches on `""`.
- Home.NameMatches: a customer or RPL row without a name makes the dropdown filter throw in
  the source; the model matches on `""`.
- Zyme.NameContains: a restored Zyme row without a name makes the search throw in the
  source; the model matches on `""`.
- Copilot.Truncate: lengths and cuts are counted in characters of the model's strings,
  whereas `substring` and `length` count UTF-16 code units. For text outside the Basic
  Multilingual Plane the source keeps fewer characters and may cut a surrogate pair in half.

## Findings

| source | as written | input that shows it | evidently intended | confidence | as-written member | corrected member |
|---|---|---|---|---|---|---|
| context/AuthContext.tsx:45-47 | `USERS[username.trim().toLowerCase()]` on an object literal, then a truthiness test, so inherited properties of `Object.prototype` count as accounts | the user name "constructor" (also "__proto__") signs in, as a user with no role | only the four listed user names sign in | high; not executed | Auth.ConstructorSignsInAsWritten | Auth.AuthProvider.Login |
