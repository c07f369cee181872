# Reporting panel: a Dafny model

The application is a reporting panel for a communications office. Staff
record monthly reports of four kinds:

- social-media figures;
- press coverage;
- website analytics;
- RPA mail-distribution counts.

The reports are stored in four backend tables, one per kind. An
administrator sees every report and manages user roles. Everyone else sees
only their own reports. The sources hold two app shells over the same
tables:

- The first shell has one page per report kind, a user-management page
  and a dashboard.
- The second shell has four entry forms, an administrator panel and a
  press-status chart.

The model keeps every backend table as an in-memory sequence of rows. Each
query becomes an operation on that sequence, and a query error becomes a
boolean `fails` (or a set of failed queries). Each page or form becomes a
class whose fields are its React state. Each handler becomes a method
whose postcondition gives the entire new state.

The pure rules around these operations have their properties proved as
lemmas and function contracts:

- listing visibility and order;
- blank-entry stripping;
- edit-time padding;
- deletion by key;
- the role filters and counts;
- the CSV export;
- the status tally.

Module layout:

- `Seqs` (`seqs.dfy`): the array methods the code uses (filter, sort by a
  key, append, remove at, replace at, join, split).
- `Text` (`text.dfy`): `trim`, the blank test, ASCII lower-casing,
  `includes` and `String(n)`.
- `Accounts` (`accounts.dfy`): roles, profiles and the `profiles` table.
- `ReportTable` (`report_table.dfy`): the first shell's payloads, its form
  rules, listing and its report table.
- `ReportPage` (`report_page.dfy`): the first shell's report page. All four
  pages share this class and differ only in their kind.
- `UserManagement` and `Dashboard`: the first shell's other two pages.
- `Shell2` (`shell2.dfy`): the second shell's row schema and table.
- `Admin` (`admin.dfy`): the administrator panel.
- `ReportForms` (`report_forms.dfy`): the four second-shell forms.
- `MediaChart` (`media_chart.dfy`): the press-status chart.

## Code notes

- **Edits reassign ownership.** The first-shell submit handlers build one
  payload with `user_id: profile.id` and use it for both the insert and the
  update (src/pages/MediaReports.tsx:84-95). An administrator who edits
  someone else's report therefore becomes its owner.
  `ReportPage.Page.OnSubmit` states this.
- **No ownership check.** Update and delete filter only by `id`
  (src/pages/MediaReports.tsx:93-94 and 126-128). Any signed-in user whose
  page shows a row can change or delete it.
- **Role changes differ between the two screens.**
  - The first shell's user page shows a label instead of the button on the
    caller's own row (src/pages/UserManagement.tsx:237) and asks for
    confirmation first (src/pages/UserManagement.tsx:45). See
    `UserManagement.RowActionFor`.
  - The second shell's panel offers the button on every row, the
    administrator's own included, and updates without asking
    (src/pages/Admin.tsx:111-114 and 242). See `Admin.RoleButtons` and
    `Admin.AdminPage.UpdateUserRole`.
- **Dashboard counts are computed client-side.** They use the same owner
  filter as the listings (src/pages/Dashboard.tsx:33-44).
  `Dashboard.ShownCount` proves that each count equals the length of the
  caller's page listing.

## Model

| member | source | states |
|---|---|---|
| Seqs.Filter | src/pages/UserManagement.tsx:69-73 | `Array.prototype.filter`: no longer than its input; an element is kept exactly when it is in the input and passes the test; a test every element passes keeps the whole input |
| Seqs.FilterMultiset | src/pages/SocialMedia.tsx:40-46 | filtering keeps each passing element with its multiplicity and drops the others entirely |
| Seqs.FilterSubsequence | src/pages/UserManagement.tsx:69 | filtering keeps the relative order of what it keeps (an order-preserving subsequence) |
| Seqs.FilterConcat | src/pages/WebsiteAnalytics.tsx:77 | filtering distributes over concatenation |
| Seqs.FilterEmpty | src/pages/UserManagement.tsx:275 | a filter comes out empty exactly when no element passes |
| Seqs.FilterComplementLength | src/pages/UserManagement.tsx:275-302 | two complementary filters split a sequence: their lengths add up to its length |
| Seqs.SameFilterLength | src/pages/Dashboard.tsx:33-45 | tests that agree on every element give filters of equal length |
| Seqs.SortDesc | src/pages/SocialMedia.tsx:46 | `.order(key, { ascending: false })`: sorted by the key, largest first, and a permutation of the input |
| Seqs.Append | src/components/Reports/MediaForm.tsx:53 | `[...xs, v]`: one more element, at the end, the others unchanged |
| Seqs.RemoveAt | src/components/Reports/MediaForm.tsx:56-61 | `filter((_, j) => j !== i)`: an index inside the list removes exactly that element and keeps the others in order; an index outside removes nothing |
| Seqs.ReplaceAt | src/components/Reports/MediaForm.tsx:63-67 | copy then assign one index: same length, index `i` holds the new value, every other index unchanged |
| Seqs.Map | src/pages/Admin.tsx:92-98 | `Array.prototype.map`: same length, element `i` is `f` of element `i` |
| Seqs.SplitJoin | src/pages/Admin.tsx:90-99 | splitting at a one-character separator undoes joining when no piece contains it |
| Seqs.JoinAvoids | src/pages/Admin.tsx:99 | a character in no piece and not in the separator is not in the joined string |
| Text.BlankIffAllWhitespace | src/pages/MediaReports.tsx:87 | `s.trim() === ''` holds exactly when every character is ECMAScript whitespace or a line terminator |
| Text.StripBlank | src/pages/MediaReports.tsx:87 | the saved list: every non-blank entry with its multiplicity, no blank entry, in the original order, never longer |
| Text.StripBlankExample | src/pages/MediaReports.tsx:87 | `["A", "", "B"]` is saved as `["A", "B"]` |
| Text.StripBlankIdempotent | src/pages/RPAReports.tsx:74 | stripping twice is stripping once, and a list without blank entries is kept as is |
| Text.PadOrTruncate3 | src/pages/WebsiteAnalytics.tsx:106 | `[...xs, '', '', ''].slice(0, 3)`: exactly three entries, the first min(n, 3) from `xs`, the rest empty |
| Text.PadThenStrip | src/pages/RPAReports.tsx:74-103 | padding a list of at most three non-blank entries to three and then stripping gives the list back |
| Text.ToLowerAscii | src/pages/UserManagement.tsx:70 | `toLowerCase` on ASCII letters: same length, each character lower-cased |
| Text.ContainsEmpty | src/pages/UserManagement.tsx:70 | every string `includes('')` |
| Text.NatToString | src/pages/Admin.tsx:94-95 | the decimal rendering of a natural number: non-empty, only digits, and a leading zero only for 0 itself |
| Text.NatToStringValue | src/pages/Admin.tsx:94-95 | the digits of that rendering stand for the number (`DigitsValue`) |
| Text.IntToString | src/pages/Admin.tsx:94-95 | `String(n)`: non-empty; a minus sign first exactly for negative numbers, followed by at least one digit, and digits everywhere after the first position |
| Text.IntToStringValue | src/pages/Admin.tsx:94-95 | the digits after the optional minus sign stand for the magnitude of `n` (`DigitsValue`) |
| Accounts.SignUpProfile | src/components/Auth/Login.tsx:31-35 | the profile created at sign-up has the user's id and e-mail and the staff role, so it is not an administrator |
| Accounts.ToggledRole | src/pages/UserManagement.tsx:242 | the toggle's target role always differs from the current one |
| Accounts.ToggleInvolution | src/pages/Admin.tsx:242 | toggling twice gives the original role back |
| Accounts.ProfileTable.SelectNewestFirst | src/pages/UserManagement.tsx:30-33 | on success, a permutation of the profiles sorted newest first; on an error, no data |
| Accounts.ProfileTable.SelectAll | src/pages/Admin.tsx:32 | on success every profile in table order; on an error, no data |
| Accounts.ProfileTable.CountAll | src/pages/Dashboard.tsx:48 | the exact number of profiles, or no count on an error |
| Accounts.ProfileTable.SetRoleStamped | src/pages/UserManagement.tsx:51-57 | on success only the rows with that id change, and only in role and `updated_at`; on an error nothing changes |
| Accounts.ProfileTable.SetRole | src/pages/Admin.tsx:112-115 | on success only the role of the rows with that id changes; on an error nothing changes |
| ReportTable.WithListField | src/pages/MediaReports.tsx:84-88 | replacing the list field keeps the kind and every other field |
| ReportTable.SavedData | src/pages/MediaReports.tsx:84-88 | the saved payload keeps the kind and every non-list field and holds the stripped list; restoring the original list gives the input back; it passes the form rules exactly when the input does |
| ReportTable.EditList | src/pages/MediaReports.tsx:114-117 | the list loaded into the edit form: empty for social media; the stored sources, or one empty input when there are none, for the press page; for the other two pages, three inputs holding the stored prefix and then empty ones |
| ReportTable.InitialList | src/pages/MediaReports.tsx:140 | the list of a fresh or cancelled form: none, one, or three inputs, all blank |
| ReportTable.ListShapes | src/pages/WebsiteAnalytics.tsx:104-107 | both the initial list and the edit list have the number of inputs the page draws |
| ReportTable.EditThenSave | src/pages/WebsiteAnalytics.tsx:77-106 | saving a stored report unchanged from the edit form writes the same payload back |
| ReportTable.EditResubmits | src/pages/MediaReports.tsx:84-117 | for every stored payload whose list is as the form saves it, `SavedData` of the payload with its edit list is the payload |
| ReportTable.SourcesEditThenSave | src/pages/MediaReports.tsx:87-116 | an empty source list is edited as one empty input and saved empty again; a non-empty one is saved unchanged |
| ReportTable.DepartmentsCell | src/pages/RPAReports.tsx:317-326 | a dash for an empty list; otherwise the first min(n, 3) departments, each after its 1-based rank |
| ReportTable.Listing | src/pages/SocialMedia.tsx:40-46 | a page's list: sorted newest first; it holds a row exactly when the row is stored and the caller is an administrator or the row's owner; every row of an administrator; nothing without a profile |
| ReportTable.ListingOwnRows | src/pages/MediaReports.tsx:62-68 | a staff member's list holds exactly the stored rows whose `user_id` is theirs |
| ReportTable.ListingKeepsAccepted | src/pages/SocialMedia.tsx:46-49 | a listing of validated rows holds only validated rows |
| ReportTable.UpdatedRows | src/pages/SocialMedia.tsx:68-71 | `update(data).eq('id', id)`: the rows with that key take the new owner and fields and keep key and creation time; every other row is unchanged |
| ReportTable.AppendKeepsAccepted | src/pages/SocialMedia.tsx:74-76 | inserting a validated row keeps the table validated |
| ReportTable.UpdateKeepsAccepted | src/pages/SocialMedia.tsx:68-71 | updating with a validated payload keeps the table validated |
| ReportTable.FilterKeepsUniqueIds | src/pages/SocialMedia.tsx:99-102 | filtering rows with distinct keys leaves their keys distinct |
| ReportTable.WithoutId | src/pages/SocialMedia.tsx:99-102 | `delete().eq('id', id)`: exactly the rows with another key remain, in order, with keys still distinct |
| ReportTable.DeleteRemovesOne | src/pages/WebsiteAnalytics.tsx:111-118 | deleting a present key removes exactly that one row and keeps the rest in order |
| ReportTable.OwnedCount | src/pages/Dashboard.tsx:37-44 | a count under the owner filter never exceeds the row count and, with no owner filter, equals it |
| ReportTable.OwnedCountIsListingLength | src/pages/Dashboard.tsx:33-45 | the dashboard's count for a caller equals the length of that caller's page listing |
| ReportTable.ReportStore.constructor | src/lib/supabase.ts:44-55 | an empty table of one kind |
| ReportTable.ReportStore.Select | src/pages/SocialMedia.tsx:40-48 | the page query: on success the caller's listing, on an error no data |
| ReportTable.ReportStore.Insert | src/pages/SocialMedia.tsx:74-77 | on success one row is appended with a fresh key, the given owner and the current time; keys stay distinct; on an error nothing changes |
| ReportTable.ReportStore.Update | src/pages/SocialMedia.tsx:68-72 | on success the rows become `UpdatedRows`; on an error nothing changes |
| ReportTable.ReportStore.Delete | src/pages/SocialMedia.tsx:99-104 | on success the rows become `WithoutId`; on an error nothing changes |
| ReportTable.ReportStore.Count | src/pages/Dashboard.tsx:37-44 | the count under the owner filter, or none on an error |
| ReportPage.Page.constructor | src/pages/SocialMedia.tsx:20-25 | an empty list, loading, no edit, closed form with its default list inputs |
| ReportPage.Page.FetchReports | src/pages/SocialMedia.tsx:38-55 | on success the list becomes the caller's listing; on an error the list stays; loading ends either way; the form state is untouched |
| ReportPage.Page.HandleCancel | src/pages/SocialMedia.tsx:111-115 | the form closes, the edit ends and the list inputs go back to their initial shape; the press, analytics and RPA forms go back to their defaults, while the social-media form's argument-less `reset()` keeps the last report loaded by `reset(report)`; the list stays |
| ReportPage.Page.OnSubmit | src/pages/SocialMedia.tsx:57-87 | the submitted list field is the form's list inputs. A payload failing the form rules, or a missing profile, changes nothing. Otherwise the stripped payload is written under the caller's id: as an update of the edited row when an edit is open, as an appended row otherwise. After a successful write the list is re-read and the form cancelled, as `HandleCancel` does; after a failed write the page and form state stay. `saving` ends false |
| ReportPage.Page.HandleEdit | src/pages/MediaReports.tsx:112-119 | for a listed report: the edit opens on its key, the form holds its fields and the list inputs hold `EditList`; when the report's list is as the form saves it, submitting the loaded values unchanged writes the report's fields back as stored |
| ReportPage.Page.UpdateListEntry | src/pages/MediaReports.tsx:255 | typing into one list input replaces that entry and nothing else |
| ReportPage.Page.HandleDelete | src/pages/SocialMedia.tsx:95-109 | declined or failed: nothing changes; confirmed and successful: the table loses exactly the rows with that key, and the list is re-read |
| ReportPage.Page.OpenForm | src/pages/SocialMedia.tsx:144 | the form opens; nothing else changes |
| ReportPage.Page.AppendSource | src/pages/MediaReports.tsx:272 | one more, empty, source input at the end |
| ReportPage.Page.RemoveSource | src/pages/MediaReports.tsx:259-267 | with more than one source input, removes the one at the index; at least one input always remains |
| UserManagement.FilteredUsers | src/pages/UserManagement.tsx:69-73 | a user is shown exactly when the lower-cased e-mail contains the lower-cased term and the role filter admits the role; the shown list is an order-preserving subsequence; the empty term with all roles shows everyone |
| UserManagement.EmptySearchMatchesAll | src/pages/UserManagement.tsx:70-71 | the empty search with all roles matches every user |
| UserManagement.AdminCount | src/pages/UserManagement.tsx:275 | at most the number of users, and zero exactly when no user is an administrator |
| UserManagement.PersonelCount | src/pages/UserManagement.tsx:289 | at most the number of users, and zero exactly when no user is staff |
| UserManagement.RoleCountsSum | src/pages/UserManagement.tsx:275-302 | the administrator and staff tiles add up to the total tile |
| UserManagement.RowActionFor | src/pages/UserManagement.tsx:237-252 | the caller's own row, and only that row, offers no toggle; a row under update shows a disabled button; every other row offers the opposite role |
| UserManagement.ScreenFor | src/pages/UserManagement.tsx:75-90 | anyone but an administrator gets the access-denied view and no list; an administrator sees the spinner while loading, then the filtered list |
| UserManagement.UserManagementPage.constructor | src/pages/UserManagement.tsx:18-22 | an empty list, loading, no update in progress, empty search, all roles |
| UserManagement.UserManagementPage.FetchUsers | src/pages/UserManagement.tsx:28-42 | on success every profile newest first; on an error the list stays; loading ends |
| UserManagement.UserManagementPage.UpdateUserRole | src/pages/UserManagement.tsx:44-67 | declining changes nothing. Confirming changes only role and `updated_at` of the rows with that id, re-reads the list on success, alerts on an update error, and clears the in-progress marker |
| Dashboard.CountOrZero | src/pages/Dashboard.tsx:54-57 | `count \|\| 0`: a missing count reads as zero |
| Dashboard.CountOwner | src/pages/Dashboard.tsx:33 | no owner filter exactly for an administrator, the caller's id otherwise |
| Dashboard.ShownCount | src/pages/Dashboard.tsx:37-57 | a tile's number is zero for a failed count and otherwise the length of the caller's listing of that kind |
| Dashboard.DashboardPage.constructor | src/pages/Dashboard.tsx:17-23 | zero counters, no user total, loading |
| Dashboard.DashboardPage.FetchStats | src/pages/Dashboard.tsx:29-65 | without a profile nothing changes. Otherwise each tile shows the caller's count of that kind; the user total is set exactly for an administrator; an exception keeps the old counters; loading ends |
| Dashboard.DashboardPage.QuickActions | src/pages/Dashboard.tsx:67-111 | the four report tiles in order with their counters, and a fifth user-management tile exactly for an administrator |
| Shell2.Where | src/pages/Admin.tsx:42-54 | a row is returned exactly when it satisfies every `eq` of the query, in table order; the bare `select('*')` returns every row |
| Shell2.Table.constructor | src/services/supabase.ts:16-59 | an empty table of one kind |
| Shell2.Table.Insert | src/components/Reports/MediaForm.tsx:26-35 | on success the row is appended; on an error nothing changes |
| Shell2.Table.Select | src/pages/Admin.tsx:56-61 | the rows matching the query, or no data on an error |
| Admin.QueryFor | src/pages/Admin.tsx:42-54 | an `eq` on month exactly when the month filter is non-empty and an `eq` on user exactly when the user filter is non-empty |
| Admin.Matching | src/pages/Admin.tsx:37-54 | a row is listed exactly when it passes every non-empty filter (both when both are set), in table order; no filter lists every row |
| Admin.CsvFields | src/pages/Admin.tsx:92-98 | one column per header column |
| Admin.CsvLines | src/pages/Admin.tsx:92-98 | one line per social-media report, in list order |
| Admin.NumberHasNoSeparator | src/pages/Admin.tsx:94-95 | a number's decimal text holds neither a comma nor a newline |
| Admin.CsvLineColumns | src/pages/Admin.tsx:92-98 | when no text column holds a comma, a line splits back into its five columns (no quoting) |
| Admin.CsvLineIsOneLine | src/pages/Admin.tsx:92-98 | a line holds no newline when its text columns hold none |
| Admin.HeaderIsOneLine | src/pages/Admin.tsx:91 | the header is a single line |
| Admin.CsvSplitsIntoLines | src/pages/Admin.tsx:90-99 | the export splits at newlines into the header followed by one line per report, `n + 1` lines in all |
| Admin.RoleButtons | src/pages/Admin.tsx:230-247 | every row, the caller's own included, has a button switching to the opposite role |
| Admin.Load | src/pages/Admin.tsx:63-68 | `data \|\| []`: a failed query is listed as empty |
| Admin.AdminPage.constructor | src/pages/Admin.tsx:12-23 | empty lists and empty filters |
| Admin.AdminPage.BuildQueries | src/pages/Admin.tsx:37-54 | the four queries built step by step are all the same query for the current filters |
| Admin.AdminPage.FetchReports | src/pages/Admin.tsx:36-69 | every list becomes the rows of its table passing the same filters, or empty when its query fails |
| Admin.AdminPage.FetchUsers | src/pages/Admin.tsx:31-34 | the user list is replaced only when data arrives |
| Admin.AdminPage.UpdateUserRole | src/pages/Admin.tsx:111-123 | only the role of the rows with that id changes, with no confirmation and no own-account check; success re-reads the users; the notice tells which outcome occurred |
| ReportForms.MediaDefaults | src/components/Reports/MediaForm.tsx:9-15 | status "olumlu", one empty source, and a form that cannot be submitted as it stands |
| ReportForms.MediaRow | src/components/Reports/MediaForm.tsx:26-33 | a press row owned by the given user, with the form's fields, and its sources equal to `StripBlank` of the form's sources: the non-blank entries in their order and with their multiplicity |
| ReportForms.MediaFormState.constructor | src/components/Reports/MediaForm.tsx:9-16 | the form starts at its defaults |
| ReportForms.MediaFormState.SetFields | src/components/Reports/MediaForm.tsx:80-115 | the four scalar inputs change, the sources stay |
| ReportForms.MediaFormState.AddNewsSource | src/components/Reports/MediaForm.tsx:52-54 | one empty source at the end, the others unchanged |
| ReportForms.MediaFormState.RemoveNewsSource | src/components/Reports/MediaForm.tsx:56-61 | offered with two or more sources: removes the one at the index; at least one source input remains |
| ReportForms.MediaFormState.UpdateNewsSource | src/components/Reports/MediaForm.tsx:63-67 | only the source at the index changes; the length is unchanged |
| ReportForms.MediaFormState.Submit | src/components/Reports/MediaForm.tsx:18-50 | a form failing the `required` checks changes nothing. With no signed-in user, or on an insert error, nothing is inserted, the form stays and an alert is shown. On success exactly `MediaRow` is appended, the form is reset and `onSuccess` runs. Loading ends false |
| ReportForms.AnalyticsDefaults | src/components/Reports/WebAnalyticsForm.tsx:9-17 | three empty page inputs, and a form that cannot be submitted as it stands |
| ReportForms.AnalyticsRow | src/components/Reports/WebAnalyticsForm.tsx:28-37 | an analytics row owned by the given user, with each typed number saved as typed, a bounce rate between 0 and 100 %, and its pages equal to `StripBlank` of the form's pages (at most three, in order, with multiplicity) |
| ReportForms.AnalyticsFormState.constructor | src/components/Reports/WebAnalyticsForm.tsx:9-18 | the form starts at its defaults |
| ReportForms.AnalyticsFormState.SetFields | src/components/Reports/WebAnalyticsForm.tsx:75-138 | the scalar inputs change, the page inputs stay |
| ReportForms.AnalyticsFormState.UpdateTopPage | src/components/Reports/WebAnalyticsForm.tsx:58-62 | only the page at the index changes; there are still exactly three |
| ReportForms.AnalyticsFormState.Submit | src/components/Reports/WebAnalyticsForm.tsx:20-56 | as for the press form, with `AnalyticsRow` and its defaults |
| ReportForms.RpaDefaults | src/components/Reports/RPAForm.tsx:9-14 | three empty unit inputs, and a form that cannot be submitted as it stands |
| ReportForms.RpaRow | src/components/Reports/RPAForm.tsx:25-31 | an RPA row owned by the given user, with the typed counts saved as typed, and its units equal to `StripBlank` of the form's units (at most three, in order, with multiplicity) |
| ReportForms.RpaFormState.constructor | src/components/Reports/RPAForm.tsx:9-15 | the form starts at its defaults |
| ReportForms.RpaFormState.SetFields | src/components/Reports/RPAForm.tsx:66-88 | month and counts change, the unit inputs stay |
| ReportForms.RpaFormState.UpdateUnit | src/components/Reports/RPAForm.tsx:49-53 | only the unit at the index changes; there are still exactly three |
| ReportForms.RpaFormState.Submit | src/components/Reports/RPAForm.tsx:17-47 | as for the press form, with `RpaRow` and its defaults |
| ReportForms.SocialDefaults | src/components/Reports/SocialMediaForm.tsx:9-15 | five empty inputs, which cannot be submitted |
| ReportForms.SocialRow | src/components/Reports/SocialMediaForm.tsx:26-33 | a social-media row owned by the given user that copies the five fields |
| ReportForms.SocialFormState.constructor | src/components/Reports/SocialMediaForm.tsx:9-16 | the form starts at its defaults |
| ReportForms.SocialFormState.SetFields | src/components/Reports/SocialMediaForm.tsx:63-107 | the inputs take the typed values |
| ReportForms.SocialFormState.Submit | src/components/Reports/SocialMediaForm.tsx:18-50 | as for the press form, with `SocialRow` and its defaults |
| MediaChart.BumpLookup | src/components/Charts/MediaChart.tsx:11 | one step adds one to the item's status and leaves the other counts alone |
| MediaChart.BumpSum | src/components/Charts/MediaChart.tsx:11 | one step adds one to the total |
| MediaChart.BumpKeys | src/components/Charts/MediaChart.tsx:11 | a seen status keeps its place; a new one is added last |
| MediaChart.BumpPositive | src/components/Charts/MediaChart.tsx:11 | no count is ever zero |
| MediaChart.StatusCount | src/components/Charts/MediaChart.tsx:10-13 | the reduce over the reports computes the tally of their statuses |
| MediaChart.TallyCounts | src/components/Charts/MediaChart.tsx:10-13 | `statusCount[s]` is the number of items whose status is `s` |
| MediaChart.TallySum | src/components/Charts/MediaChart.tsx:10-13 | the counts add up to `data.length` |
| MediaChart.TallyKeysPresent | src/components/Charts/MediaChart.tsx:15 | there is an entry for a status exactly when some item has it |
| MediaChart.TallyPositive | src/components/Charts/MediaChart.tsx:15 | no entry has a zero count |
| MediaChart.TallyOrder | src/components/Charts/MediaChart.tsx:15 | the entries come in the order in which their statuses first occur, so no status has two |
| MediaChart.OrderExtends | src/components/Charts/MediaChart.tsx:11-15 | first-occurrence order survives one more item, with a new status placed last |
| MediaChart.FirstIndex | src/components/Charts/MediaChart.tsx:15 | the position of the first occurrence of a status (no earlier entry equals it), and the length for an absent status |
| MediaChart.Label | src/components/Charts/MediaChart.tsx:16 | "olumlu" is named "Olumlu", "olumsuz" is named "Olumsuz", and anything else is "Kritik" |
| MediaChart.LabelsDistinguish | src/components/Charts/MediaChart.tsx:16-18 | distinct statuses get distinct names and distinct colours |
| MediaChart.ChartData | src/components/Charts/MediaChart.tsx:15-19 | one slice per tally entry, in order, with its count and its label |
| MediaChart.ChartOfReports | src/components/Charts/MediaChart.tsx:10-19 | the slices have distinct names and no zero value; a status has a slice exactly when some report has it, and the slice's value is the number of reports with that status |
| MediaChart.Recent | src/components/Charts/MediaChart.tsx:50 | `slice(0, 5)`: the first min(5, n) reports, in order |

## Left out

- Backend client and network: client construction and environment checks
  are not modelled. Each query's result is an input, `fails` or a set of
  failed queries, and no error message is modelled.
- Query concurrency: `Promise.all` in the dashboard and the panel is
  treated as independent queries in sequence.
- The `conditional('user_id', …)` call of the dashboard is not a standard
  query-builder method. The model gives it its evident meaning, an owner
  filter when the caller is not an administrator (`Dashboard.CountOwner`).
- Clock and dates: `created_at`, `updated_at` and `new Date()` are abstract
  integers passed in as `now`. Date formatting and `getCurrentMonth` are
  not modelled.
- Ordering among equal timestamps: `Seqs.SortDesc` picks one order; the
  backend promises none, and no contract depends on the choice.
- Backend-side columns of the second shell: the key and `created_at` of
  second-shell rows are not part of `Shell2.Report`, since no modelled
  code reads them.
- Number parsing and floats. An `<input type="number">` is `None` while
  empty and otherwise the number typed, so `parseInt`/`parseFloat` of an
  accepted input are that number. Bounce rate and session duration, which
  take two decimals, are integers in hundredths; only their bounds are
  kept.
- Empty inputs in the first shell. React-hook-form values are held as
  typed; the conversion of an empty number input to `NaN` is not modelled,
  since `required` refuses it first.
- Browser and form-library validation. The `required`, `min`, `max` and
  `type="url"`/`type="month"` checks are a predicate on the inputs
  (`ReportTable.FormAccepts`, `ReportForms.MediaReady` and the others).
  URL and month syntax is reduced to "not empty" for required inputs and
  not checked otherwise.
- Typing into inputs is one method per second-shell form (`SetFields`).
  On a first-shell page the scalar inputs are the `data` handed to
  `ReportPage.Page.OnSubmit`, and the list inputs are the page's
  `formList`, changed by `UpdateListEntry`, `AppendSource` and
  `RemoveSource`. The form-library internals behind `register`, `reset` and `useFieldArray`
  are not modelled beyond the values they hold.
- ReportPage.Page.HandleCancel: on the social-media page `reset()` has no
  arguments and the form has no default values, so under react-hook-form
  version 7 it returns to the report last loaded with `reset(report)`. The
  model keeps that report's payload in `form`. The row key and creation
  time that such a form would also carry into a later insert through
  `{...data}` are not part of `Payload`, so the duplicate-key error that
  insert would meet is not modelled.
- Dashboard.CountOwner: the page skips the owner filter when the
  non-administrator's id is falsy (`userId ? … : {}`). The model filters by
  the id even when it is the empty string; profile ids are UUIDs, so this
  case does not arise.
- ReportForms.MediaFormState.UpdateNewsSource, ReportForms.AnalyticsFormState.UpdateTopPage
  and ReportForms.RpaFormState.UpdateUnit require an index inside the list,
  the only indices the rendered inputs pass. An assignment past the end,
  which would grow a JavaScript array, is not modelled.
- The `loading` and `saving` flags are true only while a handler awaits the
  backend. Handlers are modelled as atomic steps, so the disabled buttons
  of that interval are not observable.
- Browser dialogs: `confirm` is a boolean input. `alert` is an output flag
  (`alerted`, `Admin.Notice`) without its text.
- `console.error` logging is not modelled.
- The JSON export and the download link (`JSON.stringify`,
  `encodeURIComponent`, the anchor click) are not modelled. The CSV text
  itself is.
- Case folding: `toLowerCase` is modelled on ASCII letters only.
- Sign-in: the identity provider and the password-confirmation check of the
  login pages are not modelled. Only the profile row created at sign-up is
  (`Accounts.SignUpProfile`).
- Rendering, the recharts drawing, the second chart component (which only
  renames fields), the role-gated menu and routing are not modelled.
- MediaChart.Label: statuses are the three-valued `MediaStatus`, so the
  "anything else" branch is reached only by "kritik". Other strings are
  covered by `Label` on strings, not by the tally.
