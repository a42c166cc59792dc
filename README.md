# Gyampo site: storage layer, admin gate and page state, in Dafny

This project models the logic of the Gyampo personal and campaign website, a
Next.js site. The logic has four parts.

- **The data layer** (`utils/sampleData.ts`) keeps six content collections in
  the browser's `localStorage`, as JSON text under fixed keys:
  - `getStoredData` reads a collection and falls back to a default;
  - `setStoredData` writes a collection and swallows any failure;
  - `initializeData` seeds every collection key that has no entry yet.
- **The demo admin gate** (`pages/admin/login.tsx`, `pages/admin/dashboard.tsx`) is a
  two-state session. The session is on exactly when the `gyampo_admin_auth`
  entry is present. Login compares the form against one fixed username and
  password pair and writes that entry; logout removes it. The dashboard
  loads, resets and exports the collections and shows their sizes.
- **List operations on page state:**
  - the category filters of the opportunities and ventures pages, and the saved-opportunity toggle;
  - the Azaman wallet mock-up (`pages/azaman/index.tsx`): sending money, favourite businesses, the business directory and the recipient suggestions.
- **The contact form** (`pages/contact.tsx`) appends each submission to a log in
  `localStorage`.

The modules follow those files:

| file | module | models |
|---|---|---|
| `wrappers.dfy` | `Wrappers` | `Option` |
| `lists.dfy` | `Lists` | `filter`, `slice(0, n)` and the membership toggle, with their laws |
| `text.dfy` | `Text` | `trim`, ASCII `toLowerCase`, `includes` on strings |
| `sample_data.dfy` | `SampleData` | records, keys, the store (class `LocalStore`) and its three helpers |
| `admin_login.dfy` | `AdminLogin` | session, credential check, login page (class `LoginPage`) |
| `admin_dashboard.dfy` | `AdminDashboard` | dashboard page (class `DashboardPage`), export object, stat counts |
| `opportunities.dfy` | `Opportunities` | opportunity filter, opportunities page (class `OpportunitiesPage`) |
| `ventures.dfy` | `Ventures` | venture filter, listing, ventures page (class `VenturesPage`) |
| `azaman.dfy` | `Azaman` | send step, directory, favourites, suggestions (class `AzamanApp`) |
| `contact.dfy` | `Contact` | submission log, contact page (class `ContactPage`) |

Modelling choices:

- **The store.** `LocalStore.items` is a `map<string, string>` of the raw stored text.
  - `available` stands for `typeof window !== 'undefined'`.
  - `refused` is the set of keys whose writes the browser refuses (quota exceeded), so `setItem` throws for them. Each write is refused or accepted on its own, so a run of writes such as seeding or a reset can complete for some keys and not others.
- **JSON.** `JSON.stringify`/`JSON.parse` at one type form a `Codec`. `Lawful(c)` says that encoding never gives the empty text and that decoding gives the value back. Properties that need a faithful round trip assume `Lawful`.
- **Page state.** Each page's React state is a class whose fields the handlers reassign. A handler with an `await` (login, contact) is split in two:
  - `BeginSubmit` is the part before the `await`;
  - `FinishSubmit` is the part after it.
- **Catalogs.** The static catalogs are a `Datasets` parameter; their contents play no part in the logic.
- **Clock.** Timestamps (`new Date().toISOString()`) are parameters.

Two behaviours of the code are easy to miss, and the model keeps both:

- A stored empty string counts as absent, because the test is truthiness (`utils/sampleData.ts:377-378`). The model does the same through `SampleData.Present`.
- The opportunities page parses `saved_opportunities` without a guard (`pages/opportunities.tsx:22-25`), and it writes that key with a raw `setItem` (`pages/opportunities.tsx:73`). So a failure in either place is not swallowed.

## Model

| member | source | states |
|---|---|---|
| SampleData.StorageKeysDistinct | utils/sampleData.ts:364-372 | the seven storage keys are pairwise distinct, and the admin key is not one of the six dataset keys |
| SampleData.ReadEntry | utils/sampleData.ts:376-381 | a read gives the default when the entry is missing or empty, gives the default when the text does not parse, and otherwise gives the parsed value |
| SampleData.LocalStore.GetStoredData | utils/sampleData.ts:374-382 | off-browser the default is returned whatever is stored; in a browser the result is `ReadEntry` of the store |
| SampleData.ReadAfterWrite | utils/sampleData.ts:374-391 | with a lawful codec, writing `v` and reading the same key gives `v` for every default |
| SampleData.ReadOtherKey | utils/sampleData.ts:374-391 | a write to one key does not change what any other key reads |
| SampleData.LocalStore.SetItem | utils/sampleData.ts:387 | a write changes only its own key; a write to a refused key changes nothing and reports failure |
| SampleData.LocalStore.RemoveItem | pages/admin/dashboard.tsx:51 | removal deletes exactly one key |
| SampleData.LocalStore.SetStoredData | utils/sampleData.ts:384-391 | in a browser store that accepts the key, only that key's entry is replaced with the encoded value; otherwise the store is unchanged and nothing is raised |
| SampleData.DatasetEntries | utils/sampleData.ts:393-415 | the seeded text has exactly the six dataset keys, each holding its encoded catalog |
| SampleData.Seeded | utils/sampleData.ts:397-414 | seeding adds a catalog only where its key has no entry, keeps every existing entry, and adds no other keys |
| SampleData.SeedKey | utils/sampleData.ts:397-399 | one guarded write does nothing when the key has an entry, and writes the text otherwise |
| SampleData.Restrict | utils/sampleData.ts:393-415 | a partial seeding uses exactly the catalog entries for the keys handled so far, each with its own text |
| SampleData.SeedKeyStep | utils/sampleData.ts:397-414 | one more guarded write extends a partial seeding by exactly that key |
| SampleData.SeedStep | utils/sampleData.ts:386-390 | a refused guarded write leaves a partial seeding as it was; an accepted one extends it by its key |
| SampleData.RestrictAll | utils/sampleData.ts:393-415 | once every key is handled, the partial seeding is the whole seeding |
| SampleData.SeededNothing | utils/sampleData.ts:393-415 | before any key is handled the store is unchanged |
| SampleData.SeededIdempotent | utils/sampleData.ts:393-415 | seeding twice gives the same store as seeding once, for every store and every set of entries |
| SampleData.SeededPresent | utils/sampleData.ts:397-414 | after seeding, every dataset key has an entry |
| SampleData.SeedingLeavesAuth | utils/sampleData.ts:364-372 | seeding never adds, removes or changes the admin session entry |
| SampleData.LoadAfterSeed | pages/admin/dashboard.tsx:34-44 | with lawful codecs, seeding any of the keys before loading does not change what the dashboard loads |
| SampleData.LoadAfterReset | pages/admin/dashboard.tsx:57-72 | with lawful codecs, after the catalogs are written the load gives back exactly the catalogs |
| SampleData.LoadAfterPartialReset | pages/admin/dashboard.tsx:57-72 | with lawful codecs, after only some keys are reset, each reset collection loads as its catalog and each other collection loads as before |
| SampleData.LocalStore.SeedIfMissing | utils/sampleData.ts:397-399 | one guarded write extends the partial seeding by its key, or leaves it as it was when the key is refused |
| SampleData.LocalStore.InitializeData | utils/sampleData.ts:393-415 | the six guarded writes leave the store equal to `Seeded` of the old store with the catalogs of the accepted keys, and with all six when none is refused (off-browser: unchanged) |
| AdminLogin.SessionOf | pages/admin/login.tsx:17-18 | the session is authenticated exactly when the admin entry exists and is not empty |
| AdminLogin.WithField | pages/admin/login.tsx:23-28 | an input change replaces the named credential and keeps the other |
| AdminLogin.AcceptsExactly | pages/admin/login.tsx:41 | the only accepted credentials are ("admin", "12345678") |
| AdminLogin.LoginAuthenticates | pages/admin/login.tsx:43-46 | writing the sentinel authenticates the session, whatever was stored before |
| AdminLogin.LogoutEndsSession | pages/admin/dashboard.tsx:50-53 | removing the sentinel makes the session anonymous |
| AdminLogin.DatasetWritesKeepSession | pages/admin/dashboard.tsx:34 | neither seeding nor a reset of any of the datasets changes the session |
| AdminLogin.LoginPage.OnMount | pages/admin/login.tsx:15-21 | an existing session redirects to the dashboard; otherwise nothing happens |
| AdminLogin.LoginPage.HandleInputChange | pages/admin/login.tsx:23-30 | the named credential is replaced and the error is cleared |
| AdminLogin.LoginPage.BeginSubmit | pages/admin/login.tsx:32-35 | loading starts and the error is cleared before the await |
| AdminLogin.LoginPage.FinishSubmit | pages/admin/login.tsx:38-56 | on a match the sentinel is written and the page redirects; on a mismatch the error says "Invalid username or password" and nothing is written; a refused write becomes "Login failed. Please try again."; loading ends in every case |
| AdminDashboard.ExportObject | pages/admin/dashboard.tsx:79-88 | the export carries the six current collections unchanged, plus the export date |
| AdminDashboard.Stats | pages/admin/dashboard.tsx:160-201 | each stat card shows the length of its own collection |
| AdminDashboard.StatsAfterReset | pages/admin/dashboard.tsx:55-77 | after a reset and reload the cards show the catalog sizes |
| AdminDashboard.OverwriteStep | pages/admin/dashboard.tsx:57-62 | one more unconditional write extends a partial reset by that key, or leaves it as it was when the key is refused |
| AdminDashboard.ResetKey | pages/admin/dashboard.tsx:57 | one `setStoredData` of the reset extends the partial reset by its key, or leaves it as it was when the key is refused |
| AdminDashboard.DashboardPage.Load | pages/admin/dashboard.tsx:37-44 | the six reads give `LoadDatasets` of the store |
| AdminDashboard.DashboardPage.OnMount | pages/admin/dashboard.tsx:25-48 | without a session the page redirects to login and loads and writes nothing; with one it seeds every key the browser accepts, loads every collection (its stored value, or its catalog) and stops loading; the session is kept |
| AdminDashboard.DashboardPage.HandleLogout | pages/admin/dashboard.tsx:50-53 | only the sentinel is removed, the session becomes anonymous and the page goes to login |
| AdminDashboard.DashboardPage.HandleResetData | pages/admin/dashboard.tsx:55-77 | a declined reset changes nothing; a confirmed one writes each catalog over its key where the browser accepts it and reloads; with lawful codecs and no refused key the page shows exactly the catalogs; the session is kept |
| Opportunities.FilterOpportunities | pages/opportunities.tsx:57-59 | under "all" the stored list itself; otherwise exactly the opportunities of that type, each as often as stored, in stored order |
| Opportunities.OpportunitiesPage.OnMount | pages/opportunities.tsx:16-26 | the stored opportunities or the catalog are loaded; a saved-id entry is loaded when present, and when it does not parse the effect fails and the saved list is kept |
| Opportunities.OpportunitiesPage.HandleOpportunityClick | pages/opportunities.tsx:61-64 | the clicked opportunity is selected and the modal opens together |
| Opportunities.OpportunitiesPage.HandleSaveOpportunity | pages/opportunities.tsx:66-74 | the id is toggled in the saved list, the list stays free of duplicates, and the list is written to `saved_opportunities` so that reading the key gives it back; a refused write leaves the store unchanged |
| Ventures.FilterVentures | pages/ventures.tsx:50-52 | under "all" the stored list itself; otherwise exactly the ventures of that category, each as often as stored, in stored order |
| Ventures.ListingOf | pages/ventures.tsx:156-170 | the notice is shown exactly when the filtered list is empty; otherwise the grid shows the filtered list |
| Ventures.NoticeIffNoneShown | pages/ventures.tsx:50-52 | "No ventures found" appears exactly when no stored venture matches the category |
| Ventures.VenturesPage.OnMount | pages/ventures.tsx:15-19 | the stored ventures are loaded, or the catalog when there are none |
| Ventures.VenturesPage.HandleVentureClick | pages/ventures.tsx:54-57 | the clicked venture is selected and the modal opens together |
| Lists.Filter | pages/opportunities.tsx:59 | every kept element satisfies the test, and an element of the input is kept exactly when it satisfies the test |
| Lists.FilterIsSubsequence | pages/ventures.tsx:52 | a filter keeps the input order |
| Lists.FilterCount | pages/ventures.tsx:52 | a filter keeps every passing element as often as it occurs and drops every other one |
| Lists.FilterAppend | pages/ventures.tsx:52 | a filter works element by element, so it distributes over concatenation |
| Lists.FilterFilter | pages/azaman/index.tsx:448-450 | two chained filters are one filter by the conjunction of the tests |
| Lists.FilterAll | pages/opportunities.tsx:57-59 | a filter whose test every element passes returns its input |
| Lists.FilterIdempotent | pages/ventures.tsx:52 | filtering twice by the same test is filtering once |
| Lists.FilterNoDuplicates | pages/azaman/index.tsx:433 | a filter keeps a list free of duplicates |
| Lists.Take | pages/azaman/index.tsx:298 | `slice(0, n)` returns the prefix of exactly `n` elements, or the whole list when it is shorter |
| Lists.PrefixIsSubsequence | pages/azaman/index.tsx:296-298 | a prefix of a subsequence is a subsequence |
| Lists.SubsequenceTransitive | pages/azaman/index.tsx:448-450 | deleting elements twice is deleting elements once |
| Lists.SubsequenceLength | pages/azaman/index.tsx:448-450 | a subsequence is never longer than its source, and one as long as the source is the source |
| Lists.Without | pages/azaman/index.tsx:433 | removing an id leaves no copy of it and keeps every other element |
| Lists.WithoutAbsent | pages/opportunities.tsx:69 | removing an absent id changes nothing |
| Lists.WithoutCount | pages/opportunities.tsx:69 | removal keeps every other value as often as it occurred |
| Lists.WithoutIsSubsequence | pages/opportunities.tsx:69 | removal keeps the order |
| Lists.WithoutNoDuplicates | pages/azaman/index.tsx:433 | removal keeps a list free of duplicates |
| Lists.Toggle | pages/opportunities.tsx:68-70 | a present id is removed, an absent one appended at the end, so the id is in the result exactly when it was not in the input |
| Lists.ToggleTwiceAbsent | pages/azaman/index.tsx:473 | toggling an absent id twice restores the list |
| Lists.ToggleTwicePresent | pages/opportunities.tsx:68-70 | toggling a present id twice keeps the same members and moves the id to the end |
| Lists.ToggleNoDuplicates | pages/opportunities.tsx:68-70 | a toggle keeps a list free of duplicates |
| Text.Trim | pages/azaman/index.tsx:101 | the trimmed text is the slice of the input left after only whitespace is cut from both ends, has no whitespace at either end, and is empty exactly when the input is all whitespace |
| Text.TrimStart | pages/azaman/index.tsx:101 | leading whitespace is removed, leaving a suffix that does not start with whitespace |
| Text.TrimEnd | pages/azaman/index.tsx:101 | trailing whitespace is removed, leaving a prefix that does not end with whitespace |
| Text.ToLower | pages/azaman/index.tsx:297 | lower-casing keeps the length, maps each ASCII capital to the lower-case letter 32 code points above it, and leaves every other character unchanged |
| Text.ContainsEmpty | pages/azaman/index.tsx:450 | every string contains the empty string |
| Text.ContainsAt | pages/azaman/index.tsx:450 | `includes` holds exactly when the text occurs at some position |
| Azaman.ValidateSend | pages/azaman/index.tsx:99-105 | the recipient is trimmed; a send is refused exactly when the trimmed recipient is empty, the amount is NaN or the amount is not positive |
| Azaman.NonNegative | pages/azaman/index.tsx:107 | `Math.max(0, x)` is never negative, is at least `x`, and is `x` or 0 |
| Azaman.PrependKeepsNumbering | pages/azaman/index.tsx:108-111 | putting first a transaction numbered one past the count keeps ids distinct and within 1..count |
| Azaman.AzamanApp.HandleSend | pages/azaman/index.tsx:97-117 | a refused send changes nothing but the toast; an accepted one sets the balance to max(0, balance − amount), puts exactly one `send` transaction numbered one past the old count first and keeps the rest in order, shows the success screen and toast, and clears both inputs; the balance stays non-negative |
| Azaman.CategoryAsWritten | pages/azaman/index.tsx:449 | only "Services" is renamed, to "Printing"; every other button keeps its own name |
| Azaman.CategoryFor | pages/azaman/index.tsx:449 | the intended category: as written, except that "Clubs" matches "Club" |
| Azaman.DirectoryWith | pages/azaman/index.tsx:448-450 | the business list keeps list order and lists exactly the businesses in the category whose name contains the search text case-insensitively |
| Azaman.DirectoryAsWritten | pages/azaman/index.tsx:448-450 | the same two filters with the category exactly as the code computes it |
| Azaman.Directory | pages/azaman/index.tsx:448-450 | the same two filters with the intended category for each button |
| Azaman.ClubsShowsNothingAsWritten | pages/azaman/index.tsx:449 | as written, the Clubs button lists nothing unless a business has the category "Clubs" |
| Azaman.ClubHiddenAsWritten | pages/azaman/index.tsx:78-81 | as written, Tech Society (category "Club") is never listed under Clubs, whatever the search text |
| Azaman.ClubsShowsClub | pages/azaman/index.tsx:404 | with the intended category and an empty search, Clubs lists exactly Tech Society |
| Azaman.ServicesShowsPrintShop | pages/azaman/index.tsx:403 | "Services" stands for "Printing": with an empty search it lists exactly the print shop |
| Azaman.AllWithEmptyQuery | pages/azaman/index.tsx:401 | "All" with an empty search lists every business, in order, both as the code is written and with the intended category |
| Azaman.FavoriteBusinesses | pages/azaman/index.tsx:415 | the favourites section lists, in directory order, exactly the businesses whose id is a favourite, each as often as the directory holds it |
| Azaman.AzamanApp.ToggleFavorite | pages/azaman/index.tsx:473 | the card heart toggles the id, and the favourites stay free of duplicates |
| Azaman.AzamanApp.RemoveFavorite | pages/azaman/index.tsx:433 | the favourites-section heart only removes the id |
| Azaman.MatchingUsers | pages/azaman/index.tsx:296-297 | exactly the users whose name contains the query case-insensitively, in list order, each as often as the list holds it |
| Azaman.Suggestions | pages/azaman/index.tsx:294-306 | nothing for an empty query; otherwise a prefix of the matching users of at most five, all of them when there are at most five, each containing the query case-insensitively, in list order |
| Azaman.AzamanApp.PickSuggestion | pages/azaman/index.tsx:300-304 | a picked suggestion fills the recipient input and closes the list |
| Contact.WithField | pages/contact.tsx:19-25 | an input change replaces only the named form field |
| Contact.Record | pages/contact.tsx:37-40 | a logged record is the submitted form plus the timestamp |
| Contact.StoredLog | pages/contact.tsx:36 | a missing or empty entry is the empty log; otherwise the parsed log, or a failure |
| Contact.AppendOnly | pages/contact.tsx:36-41 | a successful submit makes the stored log exactly one longer, with earlier records in place and the new record last |
| Contact.TwoSubmitsInOrder | pages/contact.tsx:36-41 | two successful submits log their records after the earlier ones, in submission order |
| Contact.ContactPage.HandleInputChange | pages/contact.tsx:19-25 | only the named form field changes |
| Contact.ContactPage.BeginSubmit | pages/contact.tsx:27-29 | submitting starts before the await |
| Contact.ContactPage.FinishSubmit | pages/contact.tsx:31-55 | on success the record is appended and written back, the toast is the thank-you `success` toast and the form is emptied; when the log does not parse or the write is refused, the store is unchanged, the toast is the `error` toast and the form is kept; submitting ends in every case |

## Left out

- Rendering, styling, routing details, scrolling and `IntersectionObserver` animations: no logic. A redirect is recorded as the `redirect` field.
- Timers: the one-second simulated delays are the split between `BeginSubmit` and `FinishSubmit`. The 2.5-second toast expiry in the Azaman app is left out, so `toast` keeps its last message.
- `window.confirm`, `alert`, `console.error`, the export download (`Blob`, object URL, anchor click) and `window.open` for directions: browser I/O. The confirmation answer is the `confirmed` parameter.
- JSON itself is a `Codec` parameter. Serialisation failures are folded into the refused write, since both are caught by the same `catch`.
- Azaman.ValidateSend: amounts are real numbers, so floating-point rounding, `Infinity` and the exact `parseFloat` grammar are not modelled. A NaN amount is `None`.
- Azaman.AzamanApp.HandleSend: a missing input element is not modelled. The inputs always exist on the send tab, and a missing one would be refused like an empty one.
- Text.ToLower: only ASCII letters are mapped, not the whole Unicode case table.
- Text.Trim: the whitespace set is the one `String.prototype.trim` uses, written out character by character.
- The static catalog contents, the mock businesses' logos and the Azaman tabs, QR code, directions modal, place search and user profile: data or single-flag UI state with no logic.
- Concurrent tabs writing the same keys (last write wins): no concurrency in the model.
- Storage quota: whether a write is refused is modelled per key and fixed for the store's lifetime (`LocalStore.refused`). A refusal that depends on the size of the value or on earlier writes is not modelled.
- Reads that throw, because storage is blocked and touching `localStorage` raises, are not modelled: every read of the store succeeds. In that case `getStoredData` would return its default, since its read is inside the `try`. The unguarded reads in `initializeData`, in the login and dashboard mount checks and in the opportunities mount effect would throw instead.

## Findings

| source | as written | input that shows it | evidently intended | confidence | as-written member | corrected member |
|---|---|---|---|---|---|---|
| pages/azaman/index.tsx:449 | the Clubs button compares each category with "Clubs", but the club in the data has category "Club" (line 80) | select Clubs with any search text: the list is empty, although Tech Society is a club | the Clubs button lists the businesses of category "Club" | not executed | Azaman.ClubHiddenAsWritten | Azaman.ClubsShowsClub |
