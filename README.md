# ziswaf in Dafny

A Dafny model of the rules under ziswaf, the donation-management app of Yayasan Islam Al Bashiirah. The app is a Next.js front end over a Supabase store. The model covers the logic that runs once the rows have been fetched:

- the public donation feed on the home page;
- the summary cards and totals of the admin lists;
- the searches, the page arithmetic and the pagination bar;
- the CSV export;
- the request gate in front of `/admin`;
- the user-management endpoint;
- the admin sidebar;
- the create forms for donations and fund mutations.

Fetched rows, the answers of inserts and updates, and the clock are parameters of the model.

Modules, one per source file plus shared helpers:

- **Shared helpers**
  - `Wrappers`: `Option`.
  - `Seqs`: filter, subsequence, and the `reduce((s, x) => s + (x.amount || 0), 0)` sum.
  - `Text`: ASCII lower-casing, `includes`, `startsWith`, digits and `||` on optional strings.
  - `ListPaging`: JavaScript `slice`, the page window, `Math.ceil` page count, and the list filter state that resets the page.
- **Feed and lists**
  - `DonationFeed`: `app/page.tsx`.
  - `PaginationBar`: `components/Pagination.tsx`.
  - `CsvExport`: `utils/export.ts`, with a reader for the format so the export can be proved lossless.
  - `DonationList`, `DisbursementList` and `EventList`: the three admin list pages.
- **Access**
  - `AccessGate`: `middleware.ts`.
  - `UserAdminApi`: `app/api/admin/users/route.ts`, plus the two user pages that call it.
  - `AdminShell`: `app/admin/layout.tsx`.
- **Forms**
  - `AmountInput`: the amount fields.
  - `FundMutationForm`: `app/admin/mutations/create/page.tsx`.
  - `DonationForm`: `app/admin/donations/create/page.tsx`.

Where the code keeps state, the model is imperative. `HomePage`, `ListFilters` and `DonationFormState` are classes whose methods update fields.

Some loops are methods proved against a specification function:

- the in-place `sort` is `DonationFeed.SortFeed`;
- the `stats` reducer is `DonationList.ComputeStats`;
- the `forEach` over the balance dictionary is `EventList.ComputeBalances`;
- the conditional building of `authUpdates` is `UserAdminApi.BuildAuthUpdates`;
- the step-by-step `handleSubmit` is `DonationForm.DonationFormState.Submit`.

Two behaviours of the code are worth stating outright:

- **Deduplication.** The `Map` keeps the first position of an id but the last row seen with it (`DonationFeed.Dedupe`, `DonationFeed.DedupeCorrect`). Rows with the same id are the same database row, so the choice of row is not visible in practice.
- **A page past the cap.** A page whose window starts at or beyond `MAX_ITEMS` returns early and leaves the feed unchanged (`DonationFeed.OnlyFirstThreePages`, `DonationFeed.HomePage.ApplyHistory`).

## Model

| member | source | states |
|---|---|---|
| DonationFeed.SortFeed | app/page.tsx:133-142 | The in-place sort yields the stable sort by the comparator: ranked, and a permutation of the deduplicated rows |
| DonationFeed.Pinned | app/page.tsx:134-135 | A row is pinned only when it has a snapshot, and then iff the lower-cased snapshot contains 'sdit albashiirah' |
| DonationFeed.Before | app/page.tsx:134-141 | The comparator puts a pinned row before an unpinned one whatever the dates, never an unpinned row before a pinned one, and orders rows of equal pinned-ness by later date first |
| DonationFeed.SortByRank | app/page.tsx:133-142 | The reference stable sort: its result is ranked by the comparator and has the same multiset of rows as its input |
| DonationFeed.Upsert | app/page.tsx:130 | `Map.set`: an id already present keeps its position and takes the new row; a new id is appended; every other id keeps its position, and distinct ids stay distinct |
| DonationFeed.Dedupe | app/page.tsx:127-130 | `new Map(all.map(...)).values()`: the ids are distinct and the result is no longer than the input (full characterization in `DedupeCorrect`) |
| DonationFeed.Merged | app/page.tsx:126-142 | The merged list of pinned ++ recent (null as []) is ranked, has distinct ids, and is no longer than the two lists together |
| DonationFeed.FetchHistory | app/page.tsx:95-150 | `fetchHistory` leaves the feed unchanged iff there is no event id, the window starts at or past 50, or both queries returned null; otherwise it yields the window of the merged list |
| DonationFeed.SortByRankFacts | app/page.tsx:133-142 | The sorted list is ranked (no row after one that precedes it) and has the same multiset of rows |
| DonationFeed.RankedOrder | app/page.tsx:134-141 | In a ranked list, a pinned row never follows an unpinned one, and rows of equal pinned-ness are in non-increasing date order |
| DonationFeed.SortByRankStable | app/page.tsx:133-142 | Sorting keeps the relative order of the rows of each rank (the sort is stable) |
| DonationFeed.DedupeCorrect | app/page.tsx:127-130 | The Map-based dedupe holds each id of pinned ++ recent exactly once, in order of first occurrence, each with the last row seen with that id, and is no longer than the input |
| DonationFeed.FindId | app/page.tsx:130 | Gives the position of the first row with an id, or None exactly when no row has it |
| DonationFeed.ResolveId | app/page.tsx:96-97 | `eventId \|\| activeEvent?.id`: the given id when non-empty, else the active one, None exactly when neither is a non-empty id |
| DonationFeed.FetchHistoryWindow | app/page.tsx:99-101 | A request that goes ahead shows at most 20 rows (10 on first load), taken in order from index (page-1)*20 of the merged list, and never a row at sorted index 50 or beyond |
| DonationFeed.FetchHistoryOrdered | app/page.tsx:127-146 | The rows shown have distinct ids, pinned rows first, newest first within each group |
| DonationFeed.OnlyFirstThreePages | app/page.tsx:99-103 | From page 4 on the request returns early; pages 1-3 with an id and data always produce a window |
| DonationFeed.FeedUnchangedOnlyWhenBothNull | app/page.tsx:126-148 | The feed is left unchanged iff both queries returned null; two empty lists give an empty feed |
| DonationFeed.ThirdPageIsShort | app/page.tsx:99-103 | The third page holds at most 10 rows |
| DonationFeed.NextDisabledOnThirdPage | app/page.tsx:386 | Once page 3 has loaded, it holds fewer than 20 rows, so Next is disabled |
| DonationFeed.DisplayName | app/page.tsx:338-340 | The name shown is 'Hamba Alloh' iff the row is not pinned; otherwise it is the snapshot, which contains 'sdit albashiirah' case-insensitively |
| DonationFeed.RedactionHidesSnapshot | app/page.tsx:338-340 | Two unpinned rows show the same name whatever their snapshots |
| DonationFeed.EventStats | app/page.tsx:79-82 | The totals are updated iff the query returned rows; the total amount is the sum of the row amounts with null counted as 0, and the donor count is the number of rows |
| DonationFeed.DonorsCountTransactions | app/page.tsx:81 | The donor count is never below the number of distinct donor ids |
| DonationFeed.EventTotalsAdd | app/page.tsx:80-81 | No rows give zero totals, one row gives its amount (null as 0) and a count of 1, and both totals add up over consecutive batches of rows |
| DonationFeed.HomePage.constructor | app/page.tsx:29-38 | The page opens with no event, zero totals, an empty feed, the summary view and page 1 |
| DonationFeed.HomePage.PrevPage | app/page.tsx:375 | Prev goes to max(1, p-1), stays within 1..20 and changes nothing else |
| DonationFeed.HomePage.NextPage | app/page.tsx:385 | Next goes to min(20, p+1), stays within 1..20 and changes nothing else |
| DonationFeed.HomePage.PrevDisabled | app/page.tsx:375-376 | Prev is disabled exactly when pressing it would leave the page where it is |
| DonationFeed.HomePage.NextDisabled | app/page.tsx:385-386 | When Next is enabled, the page shown is full (20 rows) and pressing it moves exactly one page on |
| DonationFeed.HomePage.ShowMore | app/page.tsx:366-367 | "Lihat Lebih Banyak" switches to the paginated view and changes nothing else |
| DonationFeed.HomePage.LoadEvent | app/page.tsx:69-86 | Loading the active event records its id, the totals when the query returned rows, and the first summary window when the history request goes ahead |
| DonationFeed.HomePage.ApplyHistory | app/page.tsx:95-149 | The feed becomes the computed window, or stays as it was when the request returns early |
| DonationFeed.HomePage.Refresh | app/page.tsx:53-57 | In the paginated view with an active event, the current page is fetched; otherwise the feed is untouched |
| ListPaging.TotalPages | app/admin/donations/page.tsx:85 | `Math.ceil(total/n)`: 0 iff the list is empty, otherwise the least p with p*n >= total |
| ListPaging.JsSlice | app/admin/donations/page.tsx:86-89 | `Array.prototype.slice` with non-negative bounds: the elements from `start` on, `min(end, len) - min(start, len)` of them, empty when end <= start; a negative start counts from the end |
| ListPaging.PageSlice | app/admin/donations/page.tsx:86-89 | `slice((p-1)*n, p*n)` for p >= 1 and n > 0: at most n items, the k-th being item (p-1)*n + k |
| ListPaging.PageWindow | app/admin/donations/page.tsx:86-89 | Page p is exactly the existing items at indices [(p-1)*n, p*n), so at most n of them |
| ListPaging.ItemOnItsPage | app/admin/disbursements/page.tsx:107-112 | Every item is entry i % n of page i / n + 1, and that page is among the counted pages |
| ListPaging.PagesAfterLastAreEmpty | app/admin/events/page.tsx:87-92 | A page past the last counted page is empty |
| ListPaging.ListFilters.constructor | app/admin/donations/page.tsx:16-21 | The list opens with an empty search, event 'all', 10 rows per page, on page 1 |
| ListPaging.ListFilters.SetSearch | app/admin/donations/page.tsx:62-64 | A new search text resets the page to 1; the other filters are kept |
| ListPaging.ListFilters.SetSelectedEvent | app/admin/donations/page.tsx:62-64 | A new event filter resets the page to 1; the other filters are kept |
| ListPaging.ListFilters.SetItemsPerPage | app/admin/donations/page.tsx:62-64 | A new page size resets the page to 1; the other filters are kept |
| ListPaging.ListFilters.SetCurrentPage | app/admin/donations/page.tsx:289 | The pagination bar changes only the page |
| PaginationBar.PageSizesArePositive | components/Pagination.tsx:34-36 | The page-size choices are 10, 20 and 50, all positive |
| PaginationBar.StartItem | components/Pagination.tsx:20 | On page p >= 1 the start is the 1-based number of the row at offset 0 of page p |
| PaginationBar.EndItem | components/Pagination.tsx:21 | The end is the last row of the page or the total, whichever is less |
| PaginationBar.ShownStart | components/Pagination.tsx:42 | 0 for an empty list; on an existing page a row number between 1 and the label's end |
| PaginationBar.PrevDisabled | components/Pagination.tsx:50 | From page p >= 1, Prev is enabled iff the page it asks for is at least 1 |
| PaginationBar.NextDisabled | components/Pagination.tsx:81 | From an existing page, Next is enabled iff the page it asks for exists |
| PaginationBar.PrevTarget | components/Pagination.tsx:49 | Prev asks for an earlier page, never below 1 from a later page |
| PaginationBar.NextTarget | components/Pagination.tsx:80 | Next asks for a later page, from which Prev comes back |
| PaginationBar.RangeLabelDescribesPage | components/Pagination.tsx:20-21 | On an existing page, 1 <= start <= end <= total, and the label spans exactly the page's rows: at most n, first and last row included |
| PaginationBar.EmptyListLabel | components/Pagination.tsx:42 | An empty list reads "0 - 0" and both buttons on page 1 are disabled |
| PaginationBar.NavigationStaysInRange | components/Pagination.tsx:49-50 | From an existing page, an enabled Prev or Next leads to an existing page; Next is disabled exactly on the last page |
| PaginationBar.NextEnabledPastLastPage | components/Pagination.tsx:79-81 | As written, past the last page Next stays enabled and the label reads start > end |
| PaginationBar.ClampedNextStaysInRange | components/Pagination.tsx:79-81 | With Next disabled on and after the last page, an enabled Next never leaves the counted pages; on existing pages it agrees with the original rule |
| CsvExport.Encode | utils/export.ts:2-21 | No output iff the data is null or empty; otherwise the '\n'-joined lines, one header line plus one per record |
| CsvExport.UnescapeEscape | utils/export.ts:17 | Doubling quotes loses nothing: collapsing '""' gives the original text back |
| CsvExport.EscapeQuotes | utils/export.ts:17 | Escaping adds exactly one character per '"' |
| CsvExport.EscapeKeepsCharacters | utils/export.ts:17 | Escaping changes only quotes: a character occurs in the escaped text iff it occurs in the original |
| CsvExport.NeedsQuotes | utils/export.ts:18 | A text that needs no quotes contains no '"', so escaping leaves it unchanged |
| CsvExport.EncodeField | utils/export.ts:15-19 | A field is wrapped in quotes, with its quotes doubled, iff its text contains '"', ',' or '\n'; otherwise it is emitted as it is |
| CsvExport.GetAt | utils/export.ts:15 | Reading an object at one of its keys gives the value stored there |
| CsvExport.ReadFieldText | utils/export.ts:15-19 | An encoded field followed by a separator reads back as its text |
| CsvExport.LineRoundTrip | utils/export.ts:13-20 | An encoded record reads back as its field texts |
| CsvExport.DocumentRoundTrip | utils/export.ts:11-21 | '\n'-joined encoded records read back record by record |
| CsvExport.ExportRoundTrip | utils/export.ts:8-21 | With header names that need no quoting, the output reads back as the first object's keys, then each object's values at those keys as text (null and undefined as ''), N objects giving N + 1 records |
| CsvExport.ExampleRow | utils/export.ts:13-20 | The row {Tanggal: "2024-01-01", Jumlah: "1,000"} encodes as `2024-01-01,"1,000"` |
| DonationList.ListedName | app/admin/donations/page.tsx:79 | The name searched is never empty, and is the donor's name when there is one |
| DonationList.SearchRows | app/admin/donations/page.tsx:78-81 | A row is listed iff its listed name, lower-cased, contains the lower-cased search; the listed rows keep their order |
| DonationList.EmptySearchKeepsAll | app/admin/donations/page.tsx:78-81 | An empty search lists every row, in order |
| DonationList.BucketOf | app/admin/donations/page.tsx:115-133 | Each bucket's exact condition on the lower-cased type: cash iff it names 'tunai' (even with 'transfer'); BSI 1 iff a non-cash transfer names 7185674333, even if it also names 7147181978; BSI 2 iff it names 7147181978 but not 7185674333; other transfer iff it names neither number; no bucket iff it names neither 'tunai' nor 'transfer' |
| DonationList.AddRow | app/admin/donations/page.tsx:114-134 | The callback's tests on the lower-cased type text ('tunai', then 'transfer' and the account number) do exactly the step `StatsAdd`: the amount (null as 0) goes to the total, to the row's own bucket, and to the transfer card for transfers |
| DonationList.ComputeStats | app/admin/donations/page.tsx:114-135 | The reducer loop yields the specification's cards, and transfer = bsi1 + bsi2 + otherTransfer |
| DonationList.StatsStep | app/admin/donations/page.tsx:114-135 | The cards for the rows plus one more row are one reducer step (`StatsAdd`) applied to the cards for the rows: the total and exactly the new row's own bucket rise by its amount |
| DonationList.StatsOf | app/admin/donations/page.tsx:118-133 | No rows give all-zero cards (the reducer's start); cash + transfers + the rows of no known type = total |
| DonationList.BucketsPartition | app/admin/donations/page.tsx:118-133 | The five bucket sums (cash, the two BSI accounts, other transfers, unclassified) add up to the sum of all amounts, null as 0 |
| DonationList.StatsBound | app/admin/donations/page.tsx:118-133 | With no negative amounts, cash + transfers <= total, with equality when every type names 'tunai' or 'transfer' |
| DonationList.ExportDonations | app/admin/donations/page.tsx:95-111 | Export is refused iff the filtered list is empty |
| DonationList.ExportData | app/admin/donations/page.tsx:101-108 | One exported object per listed row, in order |
| DonationList.ExportRow | app/admin/donations/page.tsx:101-108 | Every exported object has the six keys Tanggal, Donatur, Event, Tipe, Jumlah, Catatan, in that order |
| DonationList.ExportRowValues | app/admin/donations/page.tsx:101-108 | An exported object holds the date, donor (name, else snapshot, else '-'), event (else '-'), type, amount and '-' |
| DonationList.ExportDonationsRoundTrip | app/admin/donations/page.tsx:95-111 | The exported text reads back as the six column names and then each listed row's columns as text, in order |
| DisbursementList.SearchRows | app/admin/disbursements/page.tsx:99-104 | A row is listed iff its recipient or description (null as '') contains the search, ignoring case; order kept |
| DisbursementList.EmptySearchKeepsAll | app/admin/disbursements/page.tsx:99-104 | An empty search lists every row, in order |
| DisbursementList.Balance | app/admin/disbursements/page.tsx:60-72 | With no rows (or a null result) on both sides the balance is 0; its steps are stated by `BalanceMoves` |
| DisbursementList.BalanceNullAsEmpty | app/admin/disbursements/page.tsx:66-72 | A null query result on either side gives the same balance as an empty list (`|| 0`), so the base case and `BalanceMoves` fix the balance for every input |
| DisbursementList.BalanceMoves | app/admin/disbursements/page.tsx:61-72 | Each further donation raises the balance by its amount and each further disbursement lowers it by its amount (null as 0) |
| DisbursementList.BalanceCanBeNegative | app/admin/disbursements/page.tsx:72 | Spending more than was donated gives a negative balance |
| DisbursementList.TotalExpense | app/admin/disbursements/page.tsx:61-114 | The card is 0 for no rows; added to the amounts of the rows the search leaves out it gives the event's expenses that the balance (line 70) uses; an empty search makes the two equal, and with no negative amounts the card never exceeds them |
| DisbursementList.TotalExpenseMoves | app/admin/disbursements/page.tsx:99-114 | One more row raises the card by its amount (null as 0) iff the search matches its recipient or description, and leaves it unchanged otherwise |
| DisbursementList.ExportDisbursements | app/admin/disbursements/page.tsx:120-124 | Export is refused iff the listed rows are empty |
| DisbursementList.ExportData | app/admin/disbursements/page.tsx:126-135 | One exported object per listed row, in order |
| DisbursementList.ExportRow | app/admin/disbursements/page.tsx:126-135 | Every exported object has the eight keys Tanggal, Event, Penerima, Deskripsi, Kategori, Metode, Jumlah, Catatan, in that order |
| DisbursementList.ExportRowValues | app/admin/disbursements/page.tsx:126-135 | An exported object holds the date, then event, recipient, description and category (each '-' when missing), then method, amount, and notes (else '-') |
| DisbursementList.ExportDisbursementsRoundTrip | app/admin/disbursements/page.tsx:120-138 | The exported text reads back as the eight column names and then each listed row's columns as text, in order |
| EventList.ComputeBalances | app/admin/events/page.tsx:39-45 | The dictionary's keys are exactly the event ids of the transactions, and each entry is the sum of that event's amounts (null as 0) |
| EventList.AddToEntry | app/admin/events/page.tsx:42-43 | One `forEach` step creates the event's entry at 0 when missing and adds the amount, leaving other entries alone |
| EventList.BalancesStep | app/admin/events/page.tsx:41-44 | One step keeps every entry equal to its event's total |
| EventList.DisplayedBalance | app/admin/events/page.tsx:152 | The shown balance is the dictionary entry when there is one and 0 for an event without an entry |
| EventList.DisplayedBalanceIsTotal | app/admin/events/page.tsx:152 | Every event shows what was collected for it, and 0 when it has no transactions |
| EventList.NoTransactionsNoTotal | app/admin/events/page.tsx:152 | An event without transactions has collected nothing |
| EventList.BalancesPartitionTotal | app/admin/events/page.tsx:41-44 | Over distinct events covering every transaction, the entries add up to the sum of all amounts |
| EventList.Toggled | app/admin/events/page.tsx:55-62 | Toggling negates `is_active` and changes no other field |
| EventList.ConfirmAction | app/admin/events/page.tsx:56 | The question says 'mengaktifkan' when the event is closed and 'menutup' when it is open |
| EventList.FindEvent | app/admin/events/page.tsx:82-83 | The first event with the id, or None iff there is none |
| AccessGate.Decide | middleware.ts:6-74 | Non-admin paths pass; login with a session goes to the dashboard; other admin paths without a session go to login; a redirect happens iff the path is an admin path and (it is login iff there is a session) |
| AccessGate.AdminPagesNeedSession | middleware.ts:65-74 | An admin page other than login is served only with a session, and login only without one |
| AccessGate.RedirectSettles | middleware.ts:65-72 | A redirect never targets the requested path, and following it once lands on a page that is served |
| AccessGate.SessionMattersOnlyForAdmin | middleware.ts:6-8 | Outside /admin the session changes nothing |
| UserAdminApi.Gate | app/api/admin/users/route.ts:11-24 | 401 without a user, then 403 unless the role is exactly 'admin'; passes iff both hold |
| UserAdminApi.Post | app/api/admin/users/route.ts:5-81 | Refusals: the gate first, then 400 for a missing email, password or fullName. Nothing is written unless an admin called with the service key. The auth user is created first, the profile second. 200 iff every step succeeds, and then both writes happen |
| UserAdminApi.CreatedRole | app/api/admin/users/route.ts:58-68 | The profile stores the requested role when given, 'user' otherwise, together with the new id, email and name |
| UserAdminApi.AsOption | app/api/admin/users/route.ts:58-68 | An absent and a `null` body field both become NULL in the profile that POST writes; a string is kept |
| UserAdminApi.AuthUpdatesOf | app/api/admin/users/route.ts:110-113 | The auth update holds exactly the given (non-empty) email, password and full name; it is empty iff none is given |
| UserAdminApi.BuildAuthUpdates | app/api/admin/users/route.ts:110-113 | Building the object one conditional assignment at a time yields exactly that update |
| UserAdminApi.Put | app/api/admin/users/route.ts:83-139 | Gate, then 400 without id. The auth update is called iff it is non-empty, with exactly that update. Once past the auth step (no update, or one that succeeded) the profile update is always issued, as the last write; it carries the body's fields as they came: an absent field leaves its column alone, `null` clears it. 200 iff the profile update succeeds |
| UserAdminApi.Delete | app/api/admin/users/route.ts:141-181 | Gate, 400 without id, 400 "Cannot delete your own account" when the id is the caller's; otherwise `deleteUser` is always called, exactly once, on that id, and is the only write; 200 iff it succeeds |
| UserAdminApi.OnlyAdminsChangeUsers | app/api/admin/users/route.ts:11-24 | A caller that is not a signed-in admin gets 401 or 403 from every handler (the same gate is repeated at lines 89-99 and 147-157), and nothing is written |
| UserAdminApi.CreatePageAlwaysRejected | app/admin/users/create/page.tsx:15-58 | As written, the create page's request is always refused with 400 "Missing required fields" and writes nothing |
| UserAdminApi.CreatePageCreatesUser | app/api/admin/users/route.ts:28-76 | With the name sent as `fullName`, a filled-in form creates the auth user and a profile with that name and role |
| UserAdminApi.EditPageDropsName | app/api/admin/users/route.ts:103-126 | As written, an edit from the user edit page (whose form sends the name as `full_name`) never carries the name that PUT reads as `fullName`: the auth update has no metadata and the profile update's name field is absent, which leaves the column alone, so the old name stays |
| UserAdminApi.EditPageSavesName | app/api/admin/users/route.ts:103-134 | With the name sent as `fullName`, a successful edit writes it to both the auth metadata and the profile |
| AdminShell.MenuSpec | app/admin/layout.tsx:94-97 | Entries open to everyone are always listed; an admin-only entry is listed iff the lower-cased role is 'admin'; the menu is an order-preserving subsequence |
| AdminShell.AdminSeesAll | app/admin/layout.tsx:94-97 | With the admin role every entry is listed |
| AdminShell.OthersSeeOpenEntries | app/admin/layout.tsx:94-97 | Without it, exactly the entries open to everyone are listed |
| AdminShell.FilteredMenu | app/admin/layout.tsx:84-97 | Users is the only admin-only entry: it is listed iff the role is admin, and all other entries always are |
| AdminShell.MenuAndEndpointDisagree | app/admin/layout.tsx:95 | A role "Admin" sees the Users entry, yet the user endpoint refuses it with 403 |
| AdminShell.IsActive | app/admin/layout.tsx:130 | The highlighted entry is the only menu entry whose link is the current path |
| AdminShell.AtMostOneActive | app/admin/layout.tsx:130 | The menu links are distinct, so at most one entry is highlighted |
| AdminShell.Shell | app/admin/layout.tsx:75-77 | On the login page only the page is rendered; elsewhere the filtered menu is |
| AdminShell.ShouldLogout | app/admin/layout.tsx:57-62 | The check signs out exactly when at least 600000 ms (ten minutes) have passed since the last activity |
| AdminShell.InactivityThreshold | app/admin/layout.tsx:57-62 | Logout fires iff at least 600000 ms have passed since the last activity; never right after activity, and always at every later check |
| AmountInput.ParseInt | app/admin/mutations/create/page.tsx:67 | `parseInt` of a digit string is NaN (None) iff the string is empty |
| AmountInput.DonationAmount | app/admin/donations/create/page.tsx:70-73 | The amount is the decimal value of the digits typed, 0 when none |
| AmountInput.Display | app/admin/donations/create/page.tsx:74 | The field shows nothing iff no digit was typed, else the amount |
| AmountInput.MutationAmount | app/admin/mutations/create/page.tsx:42-67 | The mutation amount is NaN exactly when the field shows nothing, else the value shown |
| AmountInput.TypedNumberReadsBack | app/admin/donations/create/page.tsx:70-74 | Typing a number's decimal digits gives that number, in both forms |
| AmountInput.NonDigitsIgnored | app/admin/mutations/create/page.tsx:42 | Non-digits typed anywhere change neither the amount nor the display |
| AmountInput.NoDigitsIsZero | app/admin/donations/create/page.tsx:71 | A text with no digits reads as 0, shows nothing and gives NaN for a mutation |
| FundMutationForm.InitialForm | app/admin/mutations/create/page.tsx:15-23 | The form opens with different accounts and empty amount and notes |
| FundMutationForm.Submit | app/admin/mutations/create/page.tsx:51-80 | The same account twice is refused with no insert. Otherwise the row carries the two accounts, the event, the notes and the typed amount. Success is alerted iff the insert succeeds |
| FundMutationForm.AccountOptionsSound | app/admin/mutations/create/page.tsx:82-86 | The three accounts are distinct and the defaults (lines 17-18) are among them, so the opening form is never refused |
| FundMutationForm.SubmittedAmount | app/admin/mutations/create/page.tsx:41-67 | Typing a number's digits inserts exactly that amount |
| DonationForm.SuggestionsSpec | app/admin/donations/create/page.tsx:169-170 | A donor is suggested iff its name contains the typed text ignoring case; the donor list's order is kept |
| DonationForm.StoredType | app/admin/donations/create/page.tsx:99-102 | The stored type is 'Transfer (<bank>)' only for a transfer with a bank, else the chosen type |
| DonationForm.RadioValue | app/admin/donations/create/page.tsx:251-256 | The corrected radio value names the account number |
| DonationForm.CashBucket | app/admin/donations/create/page.tsx:217 | Cash donations land on the cash card of the list |
| DonationForm.BankChoiceAsWritten | app/admin/donations/create/page.tsx:251-256 | As written, both radios carry "BSI" (the bank names of lines 34-37), the saved type is "Transfer (BSI)", and that counts under neither account's card |
| DonationForm.BankChoiceCorrected | app/admin/donations/create/page.tsx:34-37 | With the account number in the value, the two choices differ and each saved type (line 101) counts under its own account's card |
| DonationForm.BothRadiosChecked | app/admin/donations/create/page.tsx:255 | As written, choosing either bank shows both radios checked |
| DonationForm.DonationFormState.constructor | app/admin/donations/create/page.tsx:15-53 | The form opens on today, with no donor, cash, amount 0, on the newest event if any |
| DonationForm.DonationFormState.Shown | app/admin/donations/create/page.tsx:167-170 | Suggestions appear only while the list is open and something is typed, and are then the matching donors |
| DonationForm.DonationFormState.TypeDonorName | app/admin/donations/create/page.tsx:157-161 | Typing a name makes it the snapshot, forgets the picked donor, opens the list, and changes nothing else |
| DonationForm.DonationFormState.PickSuggestion | app/admin/donations/create/page.tsx:174-178 | Picking takes the donor's id and name and closes the list |
| DonationForm.DonationFormState.ChooseTunai | app/admin/donations/create/page.tsx:217 | Cash sets the type to 'Tunai' and clears the bank |
| DonationForm.DonationFormState.ChooseTransfer | app/admin/donations/create/page.tsx:227 | Transfer sets the type and keeps the bank |
| DonationForm.DonationFormState.ChooseBank | app/admin/donations/create/page.tsx:256 | A radio sets the bank to its value and nothing else |
| DonationForm.DonationFormState.ChangeAmount | app/admin/donations/create/page.tsx:69-75 | The amount and display follow the digits typed |
| DonationForm.DonationFormState.Submit | app/admin/donations/create/page.tsx:77-125 | No donor id and no name: refused with "Nama donatur tidak boleh kosong." and nothing written. A new donor is created iff there is a name but no id. The transaction is inserted iff a donor id is settled. The row carries that id, the stored type, the amount, the event, the snapshot and the date. Success is alerted iff the insert succeeds |

## Left out

- Supabase queries, inserts, updates, deletes and auth calls, and `fetch`, `alert`, `confirm` and the router. Their answers are parameters (the rows, an `Option` error), and a write is an effect or an `insert` field of the result.
- Locale formatting (`Intl.NumberFormat`, `toLocaleString`, `toLocaleDateString`, date-fns) and `Date` parsing. Dates are integer timestamps; the export takes the date formatter as a function parameter, and `Display` returns the number to be formatted.
- The days-remaining countdown on the home page, scroll handling, window listeners, the activity timer, the one-minute interval and the auth-state subscription. Of the timer only the threshold predicate is kept.
- Cookie handling in the middleware and the Blob/DOM download of the CSV. The middleware's `matcher` configuration is not modelled either: `Decide` applies `startsWith('/admin')` as written, so a path such as `/administrator` counts as an admin path.
- The service-key check on PUT and DELETE: `createAdminClient` is a foreign call and is assumed to succeed there. POST's explicit check is modelled as the `serviceKeySet` parameter.
- Malformed JSON bodies and other exceptions caught by the endpoint's catch-all 500, apart from the backend errors that are modelled.
- Fields that are only set by their input and read back unchanged: the date, event and notes inputs of the forms. Also the React state updates that happen in between: each handler is modelled as seeing the state it was given.
- JavaScript number precision. Amounts and `parseInt` results are unbounded integers, so digit strings beyond 2^53 are not rounded. `toLowerCase` is modelled on ASCII letters only.
- A transaction with a null `event_id` in the event balances: keys are event-id strings. `undefined + amount` (NaN) does not arise, because the entry is created first.
- DonationFeed.SortFeed: the in-place `Array.prototype.sort` is modelled as a method on a sequence (an insertion sort proved equal to the stable sort), not as an update of the array in place.
- UserAdminApi.AsOption: on POST an absent `niy` or `phone` is stored as NULL, as for a newly inserted profile row; if a database trigger had already created the row, the upsert would leave that column as the trigger set it, which the model does not capture.
- Browser form validation (the `required` attribute): the donor name, event and amount inputs of app/admin/donations/create/page.tsx:165, 202 and 278, and the amount of app/admin/mutations/create/page.tsx:171. The browser refuses to submit such a form with an empty field, so some handler paths the model includes cannot be reached from the page: the empty-donor error "Nama donatur tidak boleh kosong." and a mutation insert with a NaN amount.
- The page-number loop in components/Pagination.tsx:57-72, which renders nothing.
- The dashboard, mutations list, users list, profile and event-create pages: they hold only database calls, markup and the same slice arithmetic.

## Findings

| source | as written | input that shows it | evidently intended | confidence | as-written member | corrected member |
|---|---|---|---|---|---|---|
| app/admin/donations/create/page.tsx:254 | The bank radio's value is `bank.name`, "BSI" for both accounts, and the saved type becomes "Transfer (BSI)" | Choose Transfer and either BSI account: both radios show checked, and the donation counts under "other transfer", never under 7185674333 or 7147181978 | The value names the account number, so the type string is the one the list's account cards look for | high (not executed) | DonationForm.BankChoiceAsWritten | DonationForm.BankChoiceCorrected |
| app/admin/users/create/page.tsx:18 | The create page posts its form state, whose name key is `full_name`, while POST reads `fullName` | Any filled-in form, from an admin: POST answers 400 "Missing required fields" | The body carries the name under `fullName` | high (not executed) | UserAdminApi.CreatePageAlwaysRejected | UserAdminApi.CreatePageCreatesUser |
| app/admin/users/edit/[id]/page.tsx:80-83 | The edit page sends `{ id, ...formData }` with `full_name`, while PUT reads `fullName` | An admin edits a user's name: neither the auth metadata nor the profile's `full_name` changes (the undefined field is dropped from the update) | The body carries the name under `fullName` | high (not executed) | UserAdminApi.EditPageDropsName | UserAdminApi.EditPageSavesName |
| components/Pagination.tsx:81 | Next is disabled only when `currentPage === totalPages` | 11 rows, 10 per page, on page 2; the row on page 2 is deleted, so totalPages = 1: Next stays enabled and the label reads "11 - 10" | Next disabled when `currentPage >= totalPages` | medium (not executed) | PaginationBar.NextEnabledPastLastPage | PaginationBar.ClampedNextStaysInRange |
