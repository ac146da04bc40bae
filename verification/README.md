# Firm_Serve screen logic in Dafny

Firm_Serve is a law-firm case-management web application with admin and
staff dashboards. Its screens hold the little logic the application has:

- four list screens pick the records they show: admin cases, admin billing,
  staff documents and staff expenses;
- display fallbacks pick a label ("N/A", "Unknown case", "You") or decide
  whether a bill's due date is shown;
- the expenses screen totals the rows it shows;
- the two staff pages run a load effect and pick one view by a fixed priority;
- the staff-edit form updates its fields and steps through a submit.

This project models that logic and proves properties of it.

Modules:

- `JsString` (js_string.dfy) models the JavaScript built-ins the screens
  call. Missing properties are an `Option`, and a string's truthiness is
  `Present`. `Lower` is `toLowerCase` over ASCII and `Includes` is
  `includes`, proved equivalent to "there is an index where the pattern
  occurs". It also has `parseInt(_, 10)` and the decimal text of a
  non-negative integer.
- `Lists` (lists.dfy) is `Array.prototype.filter`: the order-preserving
  sub-list of the elements satisfying a predicate.
- `AdminCases` (cases.dfy) covers the INACTIVE pre-filter, the
  search/type/status filter and the e-mail label.
- `AdminBilling` (billing.dfy) covers the search/status filter and the
  due-date rule.
- `LoadFlow` (load_flow.dfy) is the load effect and view priority that the
  staff documents and expenses pages share, as pure transition functions.
- `StaffDocuments` (documents.dfy) and `StaffExpenses` (expenses.dfy) hold
  each page's filter and label, the expense total, and a class for the
  page's hooks. The class methods are the effect, the fetch handlers and
  the search box, each proved against the `LoadFlow` functions.
- `StaffEdit` (staff_edit.dfy) covers the form's change handler and the
  submit steps: pure functions, plus a class whose methods are proved
  against them.

Each request's result is an input value. A page fetch gives a decoded list,
a non-ok status with its text, or a thrown error with its message. The
staff PATCH gives a decoded response with `ok` and the body's `error` text,
or a thrown error. The session status is an input as well.

## Model

| member | source | states |
|---|---|---|
| JsString.Lower | app/admin/cases/page.tsx:59 | `toLowerCase` keeps the length and maps each character by the ASCII case map |
| JsString.LowerAppend | app/admin/cases/page.tsx:59 | lower-casing distributes over concatenation |
| JsString.LowerIdempotent | app/admin/cases/page.tsx:59 | lower-casing twice equals lower-casing once, and leaves no upper-case ASCII letter |
| JsString.IncludesIffOccurs | app/admin/cases/page.tsx:58-59 | `s.includes(t)` holds exactly when `t` occurs in `s` at some index (both directions) |
| JsString.IncludesInfix | app/admin/cases/page.tsx:58-59 | every infix of a text is included in it |
| JsString.IncludesLength | app/admin/cases/page.tsx:58-59 | a text includes only patterns no longer than itself |
| JsString.CiIncludesInfix | app/admin/cases/page.tsx:68-70 | a text holding any case variant of the pattern matches case-insensitively, so matching is by substring and not equality |
| JsString.CiIncludesSelf | app/staff/documents/page.tsx:48-50 | every text matches itself and the empty pattern |
| JsString.CiIncludesLength | app/admin/cases/page.tsx:58-59 | a case-insensitive match implies the pattern is no longer than the text |
| JsString.DecimalString | app/staff/documents/page.tsx:29 | the `${status}` text is a non-empty digit string whose base-10 value is the number |
| JsString.ParseInt | components/Admin/Staffedit.tsx:39 | on a non-empty digit string, `parseInt(value, 10)` is the string's base-10 value |
| JsString.ParseIntDecimal | components/Admin/Staffedit.tsx:39 | `parseInt` reads back the decimal text of `n` and of `-n` |
| JsString.LeadingDigitsPrefix | components/Admin/Staffedit.tsx:39 | the digit run of `d + rest` is exactly `d` when `rest` starts with a non-digit |
| JsString.ParseIntStopsAtNonDigit | components/Admin/Staffedit.tsx:39 | `parseInt` stops at the first non-digit, so `d + rest` parses as `d` |
| Lists.Filter | app/admin/cases/page.tsx:54 | `filter` keeps exactly the elements satisfying the predicate, each with all its copies (multiset count), as an order-preserving sub-list, never longer than the input |
| Lists.FilterKeepsAll | app/admin/cases/page.tsx:54 | a predicate every element satisfies keeps the whole list unchanged |
| Lists.FilterAppend | app/admin/cases/page.tsx:54 | filtering a concatenation is the concatenation of the filtered parts, so relative order is kept |
| Lists.FilterPartition | app/admin/cases/page.tsx:54 | the kept and the dropped elements together number the input's length |
| AdminCases.ActiveCases | app/admin/cases/page.tsx:37-42 | the stored list drops exactly the cases whose status is literally "INACTIVE", keeps the rest in order with all their copies, and keeps "inactive" |
| AdminCases.ActiveCasesKeepsAll | app/admin/cases/page.tsx:38-40 | with no literally INACTIVE case, the fetched list is stored unchanged |
| AdminCases.FilteredCaseList | app/admin/cases/page.tsx:54-82 | the shown cases are exactly those meeting search, type and status filters, each as often as fetched, as an order-preserving sub-list |
| AdminCases.NoCriteriaShowsAll | app/admin/cases/page.tsx:56-79 | empty search, type "All" and status "All" show every case, in order |
| AdminCases.SearchIff | app/admin/cases/page.tsx:56-63 | a non-empty search keeps a case iff its title, or its first linked client's name, includes the term case-insensitively |
| AdminCases.SearchIgnoresLaterClients | app/admin/cases/page.tsx:60-63 | replacing the second and later client links never changes the search result |
| AdminCases.SecondClientNotSearched | app/admin/cases/page.tsx:60-63 | a case is not found by the name of its second linked client |
| AdminCases.SelectionNeedsField | app/admin/cases/page.tsx:66-79 | a non-empty type or status selection rejects a case whose field is missing or shorter than the selection, empty included |
| AdminCases.SelectionIsSubstring | app/admin/cases/page.tsx:66-79 | the type and status filters keep any field that holds a case variant of the selection |
| AdminCases.OpenFilterKeepsReopened | app/admin/cases/page.tsx:74-79 | the "open" status filter keeps a case with status "Reopened" |
| AdminCases.ShownCases | app/admin/cases/page.tsx:38-82 | the screen shows the fetched cases that are active and match all three filters |
| AdminCases.EmailLabel | app/admin/cases/page.tsx:248-250 | the label is never empty; it is the first linked client's e-mail when present, otherwise "N/A" |
| AdminBilling.FilteredBillingList | components/Admin/Billing_clients.tsx:33-51 | the shown bills are exactly those matching search and status, each as often as fetched, as an order-preserving sub-list |
| AdminBilling.NoCriteriaShowsAll | components/Admin/Billing_clients.tsx:35-48 | empty search and status "All" show every bill, in order |
| AdminBilling.SearchIff | components/Admin/Billing_clients.tsx:35-40 | a non-empty search keeps a bill iff the client's name includes the term case-insensitively |
| AdminBilling.AmountNeverMatches | components/Admin/Billing_clients.tsx:39-40 | changing a bill's amount never changes whether the search keeps it |
| AdminBilling.StatusNeedsField | components/Admin/Billing_clients.tsx:43-48 | a non-empty status selection drops bills with a missing or empty status |
| AdminBilling.PaidFilterKeepsUnpaid | components/Admin/Billing_clients.tsx:43-48 | the "Paid" status filter keeps a bill whose status is "Unpaid" |
| AdminBilling.PaidFilterAndDueDate | components/Admin/Billing_clients.tsx:105-109 | the due date is hidden only for status exactly "Paid"; bills with "Unpaid" or "PAID" pass the "Paid" filter yet show it |
| AdminBilling.IntendedSearchFindsAmount | components/Admin/Billing_clients.tsx:39-40 | with the guard reading `amount`, a bill is found by part of its amount, and everything found before is still found |
| AdminBilling.FilteredBillingListIntended | components/Admin/Billing_clients.tsx:33-51 | the intended list shows every bill the screen shows, plus the bills found by amount, in order and with every copy of a kept bill |
| AdminBilling.AmountSearchMissed | components/Admin/Billing_clients.tsx:39-40 | searching "1500" misses client "Al"'s bill of 1500, which the intended search finds |
| LoadFlow.FailureMessage | app/staff/documents/page.tsx:28-40 | a non-ok response's message starts with "API returned " and is longer than that prefix; a thrown error keeps its own message |
| LoadFlow.PageView | app/staff/documents/page.tsx:59-124 | one view by priority: session loading, then signed out, then loading, then a truthy error, then no matches, then the rows shown |
| LoadFlow.NoFetchWhileSessionLoading | app/staff/documents/page.tsx:23 | while the session is loading the effect changes nothing |
| LoadFlow.SignedOutStillFetches | app/staff/documents/page.tsx:23-26 | a signed-out session still starts a fetch, yet the page shows only the sign-in message |
| LoadFlow.SettleClearsLoading | app/staff/documents/page.tsx:33-42 | a settled fetch is never loading; success stores the list and keeps the error, failure stores the message and keeps the list |
| LoadFlow.StaleErrorHidesLaterList | app/staff/documents/page.tsx:25-116 | a reload does not reset a stored error, so every later successful reload still shows the error view |
| LoadFlow.HttpFailureShowsError | app/staff/documents/page.tsx:28-30 | a non-ok response always leads to the error view |
| LoadFlow.EmptyMessageIsNoError | app/staff/documents/page.tsx:40-41 | a thrown error with an empty message is falsy, so the page goes on to the rows |
| LoadFlow.FirstLoadShowsRows | app/staff/documents/page.tsx:19-37 | after mounting the page shows the spinner, and a successful first load shows the selected rows |
| StaffDocuments.FilteredDocuments | app/staff/documents/page.tsx:45-52 | the shown documents are exactly the matching ones, each as often as fetched, as an order-preserving sub-list |
| StaffDocuments.EmptySearchShowsAll | app/staff/documents/page.tsx:46-47 | an empty search shows every document, in order |
| StaffDocuments.SearchIff | app/staff/documents/page.tsx:46-50 | a non-empty term keeps a document iff its `doc_type`, or its case title when present, includes the term case-insensitively |
| StaffDocuments.UntitledMatchesByTypeOnly | app/staff/documents/page.tsx:48-50 | a document without a case title matches only through `doc_type` |
| StaffDocuments.CaseLabel | app/staff/documents/page.tsx:137 | the label is never empty: the case title when present, otherwise "Unknown case" |
| StaffDocuments.LabelSearch | app/staff/documents/page.tsx:45-50 | searching a titled document's label finds it; "Unknown case" finds an untitled one only through its type |
| StaffDocuments.DocumentsPage.constructor | app/staff/documents/page.tsx:16-26 | mounting gives the initial hooks (loading, no list, no error), and the mount-time effect sends one request exactly when the session is not "loading" |
| StaffDocuments.DocumentsPage.SessionChanged | app/staff/documents/page.tsx:22-26 | the effect reruns only on a new status, and a fetch is issued (and counted) iff the status is new and not "loading" |
| StaffDocuments.DocumentsPage.FetchSettled | app/staff/documents/page.tsx:27-42 | the hooks move to the settled state for the outcome; session, search term and request count are unchanged |
| StaffDocuments.DocumentsPage.SetSearchTerm | app/staff/documents/page.tsx:83 | typing changes only the search term; no request is sent |
| StaffDocuments.DocumentsPage.CurrentView | app/staff/documents/page.tsx:113-125 | the rows shown are the documents filtered by the current search term |
| StaffExpenses.FilteredExpenseList | app/staff/expences/page.tsx:45-53 | the shown expenses are exactly the matching ones, each as often as fetched, as an order-preserving sub-list |
| StaffExpenses.EmptySearchShowsAll | app/staff/expences/page.tsx:47-48 | an empty search shows every expense, in order |
| StaffExpenses.SearchIff | app/staff/expences/page.tsx:47-50 | a non-empty term keeps an expense iff its description includes the term case-insensitively; amount, date and staff never matter |
| StaffExpenses.TotalAppend | app/staff/expences/page.tsx:165-169 | the summed amount of a concatenation is the sum of the parts' sums |
| StaffExpenses.FilteredTotal | app/staff/expences/page.tsx:163-170 | the total is over the shown rows: the full sum for an empty search, 0 when nothing matches |
| StaffExpenses.TotalSplit | app/staff/expences/page.tsx:164-170 | the full sum equals the shown total plus the sum of the hidden rows |
| StaffExpenses.HiddenRowAddsNothing | app/staff/expences/page.tsx:164-170 | an expense the search hides does not change the total |
| StaffExpenses.PaidByLabel | app/staff/expences/page.tsx:111 | the label is never empty: the staff name when present and non-empty, otherwise "You" |
| StaffExpenses.ExpensesPage.constructor | app/staff/expences/page.tsx:16-26 | mounting gives the initial hooks (loading, no list, no error), and the mount-time effect sends one request exactly when the session is not "loading" |
| StaffExpenses.ExpensesPage.SessionChanged | app/staff/expences/page.tsx:22-26 | the effect reruns only on a new status, and a fetch is issued (and counted) iff the status is new and not "loading" |
| StaffExpenses.ExpensesPage.FetchSettled | app/staff/expences/page.tsx:27-42 | the hooks move to the settled state for the outcome; session, search term and request count are unchanged |
| StaffExpenses.ExpensesPage.SetSearchTerm | app/staff/expences/page.tsx:137 | typing changes only the search term; no request is sent |
| StaffExpenses.ExpensesPage.CurrentView | app/staff/expences/page.tsx:63-93 | the rows shown are the expenses filtered by the current search term |
| StaffExpenses.ExpensesPage.CurrentTotal | app/staff/expences/page.tsx:163-170 | with no search term the total is the sum of every fetched expense |
| StaffEdit.HandleChange | components/Admin/Staffedit.tsx:30-44 | only the named field changes; a number-typed `experience` becomes undefined when empty and the parsed value of a digit string; any other field keeps the raw text |
| StaffEdit.RedisplayedExperienceUnchanged | components/Admin/Staffedit.tsx:108-112 | re-entering the displayed experience in its number input leaves the form unchanged |
| StaffEdit.DecimalExperienceTruncated | components/Admin/Staffedit.tsx:36-40 | an experience input of "3.5" style stores the integer part |
| StaffEdit.InitialState | components/Admin/Staffedit.tsx:20-28 | the form starts as a copy of `initialData`, or empty without it; not submitting, no error |
| StaffEdit.SubmitRoundTrip | components/Admin/Staffedit.tsx:46-77 | submitting sets `isSubmitting` and clears the error; after the request it is false whatever happened, the form data is untouched, and the error is empty iff the response was ok |
| StaffEdit.SubmitErrorMessage | components/Admin/Staffedit.tsx:67-73 | a non-ok response shows the server's error text, or "Failed to update staff information"; a thrown error shows "An error occurred while updating" |
| StaffEdit.StaffEditForm.constructor | components/Admin/Staffedit.tsx:20-28 | the form object starts in the initial state for `initialData` |
| StaffEdit.StaffEditForm.OnChange | components/Admin/Staffedit.tsx:30-44 | a change event replaces the form data as the change handler does and touches nothing else |
| StaffEdit.StaffEditForm.SubmitStarted | components/Admin/Staffedit.tsx:46-59 | submit sets `isSubmitting`, clears the error, and sends the form data to `/api/admin/staff/<id>` |
| StaffEdit.StaffEditForm.SubmitSettled | components/Admin/Staffedit.tsx:61-76 | the hooks take the settled state, and `onSuccess` is called iff the response is ok and a callback was given |

## Left out

- The fetch calls, JSON decoding, `useEffect` scheduling and async ordering are not modelled. Each request's result is an input, so a slow older response arriving after a newer one is not captured.
- JSX rendering, CSS, the radio-button lists, `Link`, `alert`, `console.log` and `onClose` are not modelled.
- `formatDate`, `toLocaleDateString` and `Intl.NumberFormat` are not modelled.
- The expense amounts are integers (cents) rather than floating-point `Number(...)` values, so rounding in the total is not captured.
- `Lower` maps only the ASCII letters A-Z. JavaScript's `toLowerCase` also lower-cases other Unicode letters.
- `ParseInt` is exact on unbounded integers. JavaScript loses precision above 2^53, and `parseInt("-0")` is -0 rather than 0.
- The PATCH body is the form data itself. `JSON.stringify` would drop undefined fields and turn NaN into null.
- Two property reads throw a TypeError in the source when the data lacks a field: `Bills.Client.name` for a bill without a client, and `doc.doc_type.toLowerCase()` for a document without a type. The model's types require both fields, so that crash is not modelled.
- An absent `Client_Case` array and an empty one are both the empty sequence. Optional chaining treats the two alike.
- The cases and billing screens also have a `loading` flag and a loading/empty/list view. That is fetch plumbing, so it is not modelled.
- StaffDocuments.DocumentsPage.CurrentView: states only which rows it shows. The view priority itself is stated and proved on LoadFlow.PageView, which CurrentView applies.
- StaffExpenses.ExpensesPage.CurrentView: states only which rows it shows. The view priority is stated on LoadFlow.PageView.
- The staff-departure reassignment (`getClientCasesMap` and the batch submit `handleConfirmDelete` in app/admin/staff/[id]/page.tsx) is not modelled.
- components/navbar/clientNav/ClientNav.tsx is not part of this model. Its only logic is choosing the Login or Sign Out link.
- app/api/staff/cases/route.ts and app/api/register/route.ts are not part of this model. They are thin database queries and validation through foreign libraries.
- types/next-auth.d.ts is not part of this model: it holds type declarations only.
- The admin staff and client detail pages and their API route are not part of this model either.

## Findings

| source | as written | input that shows it | evidently intended | confidence | as-written member | corrected member |
|---|---|---|---|---|---|---|
| components/Admin/Billing_clients.tsx:39-40 | the amount branch of the search is guarded by `Bills.amout`, a property no billing record has, so it never fires | a bill for client "Al" with amount "1500" and the search "1500": the bill is not shown | the guard reads `Bills.amount`, as the branch's own body does, so bills can be found by amount | medium (assumes the amount arrives as text, as `.toLowerCase()` presumes); not executed | AdminBilling.AmountSearchMissed | AdminBilling.IntendedSearchFindsAmount |

The screen's own filter, `AdminBilling.FilteredBillingList`, keeps the
as-written behaviour because it models what the screen shows.
`AdminBilling.MatchesSearchIntended` and
`AdminBilling.FilteredBillingListIntended` give the corrected search and
list.
