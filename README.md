# Invoice management — a verified model of its core

This project models the core of an invoicing web application in Dafny, with proofs. Users keep
clients, issue invoices with line items, payment terms and optional course details, and mark
invoices paid or unpaid. They number invoices with a browser-side counter, view a dashboard and
financial reports, and back up and restore all their data.

The model covers seven parts:

- **The payment-status engine.** Overdue and due-soon detection, urgency tiers, the mark-paid and
  mark-unpaid transitions, and the status normaliser.
- **The invoice-number counter.** A class over its two stored slots.
- **Payment terms and backups.** The payment-terms table, the backup envelope and its validator.
- **The backup import endpoint.** A transaction over three tables that restores the old state on
  any error.
- **The service layer.** Row mapping, the UPDATE builder, the item grouping, and the full update
  that replaces an invoice's items.
- **The route handlers.** The guard order of invoices, clients and courses, including the courses
  find-or-create.
- **The client-side logic from the React components.** Form validation, totals, item edits, the
  payment-terms select encoding, the list filter, list maintenance, invoice duplication and the
  report aggregates.

Code that works by mutation takes the same form here:

- **Classes.** The counter (`InvoiceNumbering.NumberCounter`), the import database
  (`BackupImport.Database`), the service tables (`ClientService.ClientTable`,
  `InvoiceService.InvoiceStore`, `CourseRoutes.CourseTable`), the form dialogs and the invoice
  screen are classes whose methods update fields.
- **Loops.** These loops are methods with loops:
  - the analytics loops and the status `reduce` (`Analytics.GetMonthlyRevenueData`,
    `Analytics.GetStatusDistribution`, `Analytics.GetRecentActivity`);
  - the report loops (`FinancialReports.PaymentMethodsData`, `FinancialReports.OutstandingInvoices`,
    `FinancialReports.CourseReportData`);
  - the form's item check (`InvoiceFormCommon.CollectItemErrors`) and the client update builder
    (`ClientService.PushDefined`);
  - the invoice service's grouping `reduce` and item inserts (`InvoiceService.GroupByKey`,
    `InvoiceService.InvoiceStore.InsertItems`);
  - the import loops (in `BackupImport.Database`).

  Each is proved equal to a specification function, and the lemmas prove properties of that
  function. Two groups sit in code that only computes a value and are recursive functions instead:
  the `for … of` checks of `validateBackup` (`Backup.CheckClients`, `Backup.CheckInvoices`), and the
  `reduce` of `getTopClients` (`Analytics.GroupByClient`, through `Grouping.GroupBy`). The
  `forEach` of the monthly revenue chart is left out (see "## Left out").

Modelling conventions:

- Money and quantities are `real`.
- Timestamps are integer milliseconds, and a day is 86400000 ms.
- Parsed JSON is the datatype `Json.Json`, with JavaScript truthiness written out.
- A database table is a sequence of rows in creation order, or a map keyed by id in the import
  endpoint.

Where the repository's written description and its code disagree, the model follows the code:

- `markAsPaid` always overwrites the payment date (src/utils/paymentService.ts:27).
- The import endpoint does not default missing invoice dates to the current time
  (src/app/api/backup/import/route.ts:78-79).
- The import reads an item's price only from `price` and `unit_price`.

## Model

| member | source | states |
|---|---|---|
| Domain.FindClientById | src/components/NewInvoiceForm.tsx:113 | the search by id returns the first listed client with that id, and nothing exactly when no client has it |
| Domain.FindClientByName | src/components/EditInvoiceForm.tsx:87 | the search by name returns the first listed client with that name, and nothing exactly when no client has it |
| Strings.TrimEmptyIffBlank | src/components/EditInvoiceForm.tsx:214-231 | `!s.trim()` holds exactly for texts made of whitespace only |
| Strings.Split | src/components/NewInvoiceForm.tsx:552 | splitting on a character always gives at least one part, and no part holds the character |
| Strings.JoinSplit | src/components/NewInvoiceForm.tsx:552-553 | splitting on a character and joining with it gives the text back |
| Strings.SplitJoin | src/components/NewInvoiceForm.tsx:552-553 | joining parts free of the separator and splitting again gives the parts back |
| Strings.ParseIntOfInt | src/components/EditInvoiceForm.tsx:622 | parsing the decimal text of an integer gives that integer |
| PaymentService.MarkAsPaid | src/utils/paymentService.ts:17-32 | the status becomes paid and the payment date today, always overwriting an earlier one; a non-empty method and transaction id are kept, others become "Bank Transfer" and a fresh id; every other field is unchanged |
| PaymentService.MarkAsUnpaid | src/utils/paymentService.ts:34-53 | the three payment fields are removed; the status is overdue exactly when now is past the due date, otherwise pending, so never draft or paid; every other field is unchanged |
| PaymentService.IsOverdue | src/utils/paymentService.ts:97-105 | true exactly for an invoice that is neither paid nor draft whose due date lies before now |
| PaymentService.GetOverdueInvoices | src/utils/paymentService.ts:55-80 | a permutation of the overdue invoices tagged with their days overdue; each entry is overdue, comes from the input, has days overdue equal to the floor of the elapsed days and at least 0, and is not marked as reminded; the entries are ordered most days overdue first |
| PaymentService.GetOverdueInvoicesStable | src/utils/paymentService.ts:78 | the sort is stable: the entries with the same days overdue appear in the order their invoices have in the input |
| PaymentService.GetOverdueInvoicesExact | src/utils/paymentService.ts:55-66 | an invoice is listed if and only if it is in the input and overdue |
| PaymentService.GetDueSoonInvoices | src/utils/paymentService.ts:82-95 | an order-preserving subsequence of the input holding exactly the pending invoices due between now and now plus `daysAhead` days (7 by default), both ends included |
| PaymentService.DueSoonNeverOverdue | src/utils/paymentService.ts:82-105 | no invoice listed as due soon is overdue |
| PaymentService.UpdateInvoiceStatus | src/utils/paymentService.ts:107-123 | paid, draft and overdue invoices are returned unchanged, so overdue is never demoted; a pending invoice becomes overdue exactly when now is past its due date; only the status can change |
| PaymentService.UpdateInvoiceStatusIdempotent | src/utils/paymentService.ts:107-123 | normalising twice gives the same invoice as normalising once |
| PaymentService.UpdateInvoiceStatusReflectsOverdue | src/utils/paymentService.ts:97-123 | after normalising, an overdue invoice has the stored status overdue, and a stored overdue status past the due date means overdue |
| PaymentService.UnpaidAfterPaid | src/utils/paymentService.ts:17-53 | marking unpaid right after marking paid yields the original invoice with the payment fields cleared and the status set by the due date |
| PaymentService.MarkAsPaidIdempotent | src/utils/paymentService.ts:17-32 | a second mark-paid on the same day changes nothing |
| PaymentService.DayFloor | src/utils/paymentService.ts:161-163 | Math.floor division by the day length compares with a whole number of days as the undivided value compares with that many day lengths |
| PaymentService.GetUrgencyLevel | src/utils/paymentService.ts:152-174 | low for paid and draft; otherwise critical iff more than 30 days late, high iff more than 7 and at most 30 days late, medium iff at most 7 days late or due within the floor of 3 days, low otherwise |
| PaymentService.UrgencyAgreesWithOverdue | src/utils/paymentService.ts:152-174 | an overdue invoice is never of low urgency, and high or critical urgency means overdue |
| PaymentService.FormatDaysOverdue | src/utils/paymentService.ts:132-135 | "1 day overdue" for one day, "<n> days overdue" for any other count |
| PaymentService.GeneratePaymentReminder | src/utils/paymentService.ts:176-184 | empty exactly when the invoice is not overdue; otherwise the reminder sentence with the invoice number, the days-overdue text, the due-date text and the amount |
| PaymentTermsUtil.OptionsAscending | src/utils/paymentTerms.ts:4-11 | the table holds six entries whose days are 0, 15, 30, 45, 60 and 90, strictly ascending and so distinct |
| PaymentTermsUtil.CalculateDueDate | src/utils/paymentTerms.ts:16-21 | the due date lies exactly `days` whole days after the issue date |
| PaymentTermsUtil.FindByDays | src/utils/paymentTerms.ts:26-28 | `find`: the result is the first entry with those days, and there is none exactly when no entry has them |
| PaymentTermsUtil.GetPaymentTermsByDays | src/utils/paymentTerms.ts:26-28 | an option is returned if and only if one has the given days, and it is one of the options with those days |
| PaymentTermsUtil.GetPaymentTermsByDaysUnique | src/utils/paymentTerms.ts:4-28 | any option with the given days is the one returned |
| PaymentTermsUtil.FormatPaymentTerms | src/utils/paymentTerms.ts:33-35 | the description, unchanged |
| PaymentTermsUtil.CreateCustomPaymentTerms | src/utils/paymentTerms.ts:40-45 | the days as given; a non-empty description is kept, a missing or empty one becomes "Net <d> day" for one day and "Net <d> days" otherwise |
| PaymentTermsUtil.CustomDefaultOneDay | src/utils/paymentTerms.ts:43 | one day reads "Net 1 day", and an empty description for 30 days reads "Net 30 days" |
| InvoiceNumbering.NextSequence | src/utils/invoiceNumberGenerator.ts:21-31 | 1 when the stored year is absent or differs from the current year, or when no sequence is stored; otherwise the stored sequence plus one |
| InvoiceNumbering.FormatNoTruncation | src/utils/invoiceNumberGenerator.ts:36-38 | from 1000 on the number is "INV-", the year, "-" and all the sequence's digits: padding to four never truncates |
| InvoiceNumbering.FormatSequenceRecoverable | src/utils/invoiceNumberGenerator.ts:36-38 | the number starts with "INV-<year>-" and the rest is all digits that read back as the sequence |
| InvoiceNumbering.FormatInjective | src/utils/invoiceNumberGenerator.ts:36-38 | within a year, two non-negative sequences format to the same number only when they are equal |
| InvoiceNumbering.Run | src/utils/invoiceNumberGenerator.ts:14-34 | n successive generates within one year produce n sequences |
| InvoiceNumbering.RunIncreasing | src/utils/invoiceNumberGenerator.ts:29-34 | the k-th generate within a year yields the first sequence plus k |
| InvoiceNumbering.RunDistinct | src/utils/invoiceNumberGenerator.ts:29-34 | successive sequences within a year are strictly increasing |
| InvoiceNumbering.RunNumbersDistinct | src/utils/invoiceNumberGenerator.ts:29-38 | the numbers generated within a year are pairwise distinct |
| InvoiceNumbering.NumberCounter.constructor | src/utils/invoiceNumberGenerator.ts:7-8 | both storage slots start empty |
| InvoiceNumbering.NumberCounter.Generate | src/utils/invoiceNumberGenerator.ts:14-39 | stores the current year and the next sequence (restarting at 1 in a new year), and returns that sequence's number |
| InvoiceNumbering.NumberCounter.GetCurrentSequence | src/utils/invoiceNumberGenerator.ts:44-47 | the stored sequence, or 0 when none is stored |
| InvoiceNumbering.NumberCounter.Preview | src/utils/invoiceNumberGenerator.ts:52-66 | changes nothing and returns the number the next generate in the same year would return |
| InvoiceNumbering.NumberCounter.Reset | src/utils/invoiceNumberGenerator.ts:71-74 | empties both slots, so the next generate in any year yields sequence 1 |
| InvoiceNumbering.NumberCounter.SetInvoiceSequence | src/utils/invoiceNumberGenerator.ts:79-83 | stores the sequence minus one under the given year (the current year for an absent or zero year), so the next generate in that year yields the given sequence |
| Backup.ExportData | src/utils/backup.ts:13-29 | the envelope has exactly the keys version, timestamp, settings, clients and invoices; the version is "1.0.0" and the other four are the arguments passed through unchanged |
| Backup.CheckClients | src/utils/backup.ts:57-61 | no error exactly when every client is non-null with a truthy id and name; otherwise the error is a null entry or the missing-fields error |
| Backup.CheckInvoices | src/utils/backup.ts:64-72 | no error exactly when every invoice is non-null with a truthy id, a truthy client under one of its three aliases and a truthy number under one of its three aliases; otherwise a null entry or the missing-fields error |
| Backup.ValidateBackup | src/utils/backup.ts:31-75 | success returns the input unchanged and happens exactly when every guard and every entry passes; each guard error occurs exactly when the guards before it pass and it fails, in the order format, version, timestamp, settings, clients array, invoices array, then the clients' entries before the invoices' |
| Backup.VersionNotCompared | src/utils/backup.ts:36-38 | replacing the version with any truthy value does not change whether the payload validates |
| Backup.OneBadClientRejects | src/utils/backup.ts:57-61 | one client without a truthy id or name anywhere in the array rejects the whole payload |
| Backup.ClientAliasAccepted | src/utils/backup.ts:65 | an invoice that names its client only under `client` passes the entry check |
| Backup.ExportThenValidate | src/utils/backup.ts:15-29 | validating an exported envelope with a non-empty timestamp and valid entries succeeds and gives back the same clients and invoices |
| BackupImport.InsertOrSkip | src/app/api/backup/import/route.ts:33 | in this model, an insert fails exactly when the id binds to NULL; an id already present leaves the table unchanged, a new one adds exactly that row |
| BackupImport.InsertAllKeepsExisting | src/app/api/backup/import/route.ts:24-55 | a successful run of inserts keeps every existing key and leaves each existing row unchanged |
| BackupImport.InsertAllKeysFrom | src/app/api/backup/import/route.ts:24-55 | every key after a run of inserts was already there or is the id of one of the entries |
| BackupImport.InsertAllAbsorbed | src/app/api/backup/import/route.ts:24-55 | repeating a successful run of inserts on a table that holds all the keys it produced inserts nothing |
| BackupImport.ClientRowDefaults | src/app/api/backup/import/route.ts:35-53 | missing client text fields are stored as "", a missing phone as NULL, a missing course flag as false, a missing owner as imported-user and missing timestamps as the import time |
| BackupImport.InvoiceRowResolution | src/app/api/backup/import/route.ts:72-90 | the stored number is the first truthy of number, invoice_number and invoiceNumber; the status defaults to pending, tax and total to 0 (total falling back to amount) and the owner to imported-user |
| BackupImport.ExportedItemStored | src/app/api/backup/import/route.ts:107-112 | an item carrying the keys the export writes (id, invoiceId, description, quantity, price, amount) is stored under its id with exactly those values |
| BackupImport.ItemRowDefaults | src/app/api/backup/import/route.ts:108-113 | a missing quantity becomes 1, a missing price falls back to unit_price and then 0, a missing invoice id becomes the parent invoice's id and a missing owner the invoice's owner |
| BackupImport.InsertInvoice | src/app/api/backup/import/route.ts:58-117 | inserting one invoice and its items never touches the clients table |
| BackupImport.InsertInvoices | src/app/api/backup/import/route.ts:58-118 | the invoice loop never touches the clients table |
| BackupImport.SkippedInvoiceItemsAttempted | src/app/api/backup/import/route.ts:61-117 | when the invoice's id is already stored the invoice row is skipped but its items are still inserted, and the call succeeds exactly when those item inserts do |
| BackupImport.InsertInvoiceKeepsExisting | src/app/api/backup/import/route.ts:61-117 | one invoice with its items keeps every stored invoice and item row unchanged |
| BackupImport.InsertInvoicesKeepsExisting | src/app/api/backup/import/route.ts:58-118 | the whole invoice loop keeps every stored invoice and item row unchanged |
| BackupImport.InsertInvoicesAbsorbed | src/app/api/backup/import/route.ts:58-118 | repeating a successful invoice loop on tables that already hold all the keys it produced changes nothing |
| BackupImport.SplitBody | src/app/api/backup/import/route.ts:11 | destructuring throws exactly for a null or undefined body; otherwise the flag is the truthiness of clearExisting and the rest is an object without that key |
| BackupImport.Import | src/app/api/backup/import/route.ts:9-136 | a failed request leaves the tables exactly as they were; an invalid payload fails with the validator's error before any write; success reports the lengths of the payload's clients and invoices arrays |
| BackupImport.ImportKeepsExistingRows | src/app/api/backup/import/route.ts:24-118 | without clearExisting a successful import leaves every existing client, invoice and item row as it was |
| BackupImport.ClearReplacesClients | src/app/api/backup/import/route.ts:17-21 | with clearExisting every client left afterwards is one of the payload's clients, whoever owned the rows before |
| BackupImport.ImportIdempotent | src/app/api/backup/import/route.ts:24-118 | importing the same payload a second time leaves the same tables and reports the same counts |
| BackupImport.ClientKeyNotStored | src/app/api/backup/import/route.ts:73 | an invoice naming its client only under `client` is stored with a falsy client_id |
| BackupImport.DatesNotDefaulted | src/app/api/backup/import/route.ts:78-79 | with no issued or due date under any alias both columns bind to NULL |
| BackupImport.Database.InsertClientRows | src/app/api/backup/import/route.ts:24-55 | the client loop leaves the table that inserting every entry in order gives, or reports the first error; the other two tables are unchanged |
| BackupImport.Database.InsertItemRows | src/app/api/backup/import/route.ts:97-117 | the item loop leaves the items table that inserting every item in order gives, or reports the first error; the other two tables are unchanged |
| BackupImport.Database.InsertInvoiceAndItems | src/app/api/backup/import/route.ts:59-117 | the new state is one invoice and its items inserted, or the error that step raises |
| BackupImport.Database.InsertInvoiceRows | src/app/api/backup/import/route.ts:58-118 | the invoice loop ends in the state the whole invoice step gives, or with its first error |
| BackupImport.Database.RunTransaction | src/app/api/backup/import/route.ts:14-118 | the work between BEGIN and COMMIT ends in the state the optional clear and both loops give, or with their first error |
| BackupImport.Database.ImportBackup | src/app/api/backup/import/route.ts:5-140 | the new tables and the response are those of one import request, so any error leaves the tables as they were before the call |
| ApiValidation.MatchAllPositional | src/utils/api.ts:42-43 | an anchored pattern of fixed-count classes matches exactly the strings of the pattern's length whose every character is in the class demanded at its position |
| ApiValidation.UuidClassesFrom20 | src/utils/api.ts:42 | the last three pieces of the pattern demand hex, a hyphen and twelve hex digits at positions 20 to 35 |
| ApiValidation.UuidClassesFrom14 | src/utils/api.ts:42 | from position 14 on the pattern demands the version digit, three hex digits, a hyphen, the variant digit and the rest of the 8-4-4-4-12 layout |
| ApiValidation.UuidPatternClasses | src/utils/api.ts:42 | the pattern has length 36 and demands at each position the class of the 8-4-4-4-12 layout |
| ApiValidation.UuidPositionsShape | src/utils/api.ts:42 | for a 36-character string, every character being in its position's class is the same as hyphens at 8, 13, 18 and 23, a 4 at 14, a variant digit 8, 9, a or b at 19 and hex digits elsewhere |
| ApiValidation.IsValidUUIDShape | src/utils/api.ts:41-44 | a string is accepted exactly when it has 36 characters with hyphens at 8, 13, 18 and 23, the version digit 4 at 14, a variant digit 8, 9, a or b at 19 and hex digits in either case everywhere else |
| ApiValidation.MatchAllIgnoresCase | src/utils/api.ts:42 | with the `i` flag a string and its lower-cased form match alike |
| ApiValidation.UuidIgnoresCase | src/utils/api.ts:41-44 | a string is a valid UUID exactly when its lower-cased form is |
| ApiValidation.ParseStatus | src/utils/api.ts:49-52 | a parsed status's wire spelling is the input text |
| ApiValidation.ValidStatusIffName | src/utils/api.ts:49-52 | a status text is accepted exactly when it is the wire spelling of one of the four statuses, which is exactly when it parses |
| ApiValidation.ParseStatusName | src/utils/api.ts:49-52 | the wire spelling of every status parses back to that status |
| Analytics.MonthsBack | src/utils/analytics.ts:133-137 | the month i months back has a month number from 0 to 11 and lies exactly i months before the given one |
| Analytics.PreviousMonthIsOneBack | src/utils/analytics.ts:79-80 | the dashboard's previous month, with January wrapping to December of the year before, is exactly one month back |
| Analytics.GetDashboardMetrics | src/utils/analytics.ts:49-110 | the counts are the list length and the number of paid invoices; pending and overdue amounts are the sums over exactly those stored statuses, and total revenue is the sum of all four per-status sums; monthly revenue sums the paid invoices issued this month; growth is 0 when last month's paid revenue is not positive and otherwise the percentage change; the average is revenue over count, or 0 with no invoices |
| Analytics.TotalRevenueByStatus | src/utils/analytics.ts:50-62 | total revenue counts every invoice whatever its status: it equals the paid, pending, draft and overdue sums added up |
| Analytics.MonthEntryOnlyPaid | src/utils/analytics.ts:141-154 | removing every unpaid invoice changes no month's chart entry |
| Analytics.GetMonthlyRevenueData | src/utils/analytics.ts:112-158 | six entries, oldest first, entry k being the paid invoices' count and revenue for the month 5-k months back |
| Analytics.MonthlyWindow | src/utils/analytics.ts:132-137 | the six months are consecutive and the last one is the current month |
| Analytics.StatusLabel | src/utils/analytics.ts:177 | the label is the status name with its first letter upper-cased and the rest unchanged |
| Analytics.GetStatusDistribution | src/utils/analytics.ts:160-182 | the reduce loop and the mapping give the grouped per-status slices |
| Analytics.SumSlicesOfGroups | src/utils/analytics.ts:176-181 | the slices' counts add up to the groups' counts |
| Analytics.StatusDistributionCorrect | src/utils/analytics.ts:160-182 | one slice per status present and none twice; each count is the number of invoices with that status and is positive, the value equals the count, the label is the capitalised status with its colour; the counts add up to the number of invoices |
| Analytics.GroupByClientCorrect | src/utils/analytics.ts:185-198 | one entry per client name in the input and no name twice; each holds the sum of that client's totals and the positive number of its invoices |
| Analytics.GetTopClients | src/utils/analytics.ts:197-200 | five entries, or every client's entry when there are fewer than five clients, ordered by revenue highest first, drawn from the per-client entries without repetition |
| Analytics.TopClientsTiesInOrder | src/utils/analytics.ts:197-200 | the five are the head of the client list sorted by revenue, and clients of equal revenue keep their first-seen order in it |
| Analytics.TopClientsAreTop | src/utils/analytics.ts:197-200 | a client left out of the top five earned no more than any client shown |
| Analytics.EntriesForShape | src/utils/analytics.ts:214-244 | every invoice gets its created entry; a payment entry exactly when paid with a payment date; an overdue entry exactly when its stored status is overdue; each entry carries the invoice's number and total |
| Analytics.RecentActivityOrdered | src/utils/analytics.ts:247-249 | eight entries, or all the entries of the recent invoices when there are fewer than eight, newest first |
| Analytics.RecentActivityIsNewest | src/utils/analytics.ts:247-249 | the entries shown and those cut off together make up all the entries of the recent invoices, and no entry cut off is newer than one shown |
| Analytics.RecentActivityFrom | src/utils/analytics.ts:207-249 | each entry shown belongs to one of the ten most recently issued invoices |
| Analytics.GetRecentActivity | src/utils/analytics.ts:203-250 | the loop's pushes, sorted newest first and cut to eight, give the specified recent activity |
| Analytics.RecentAreMostRecent | src/utils/analytics.ts:207-213 | the recent list has min(10, count) invoices, together with the rest of the sorted list it is a permutation of the input, and none left out was issued after one kept |
| InvoiceRoutes.GetInvoices | src/app/api/invoices/route.ts:11-18 | without a caller the answer is 401 and no call is made; otherwise the invoices are fetched for that caller |
| InvoiceRoutes.GetInvoicesResponse | src/app/api/invoices/route.ts:18-26 | the fetched list is returned as is; a failed fetch answers 500 with its message |
| InvoiceRoutes.PatchResponse | src/app/api/invoices/route.ts:64-82 | no invoice answers 404, an updated invoice is returned as is, a failure answers 500 |
| InvoiceRoutes.PatchStatusesAreValid | src/app/api/invoices/route.ts:47 | the handler's own status list accepts exactly what the shared status validator accepts |
| InvoiceRoutes.PatchCallsOnlyWhenValid | src/app/api/invoices/route.ts:30-69 | the update is called exactly when there is a caller, the body is readable, id and status are truthy, the status is one of the four names and the id passes the UUID test; the call carries that status, the id and paymentData as sent and the caller |
| InvoiceRoutes.PatchGuardOrder | src/app/api/invoices/route.ts:32-62 | 401 comes before everything, an unreadable body answers 500, then the three 400s in the order presence, status, id format |
| InvoiceRoutes.PatchIdArrayPasses | src/app/api/invoices/route.ts:56-57 | an id sent as an array holding one valid UUID string passes the format check, as the regular expression test converts it to that string |
| InvoiceRoutes.PostResponse | src/app/api/invoices/route.ts:115-122 | a created invoice answers 201 with it, a failure answers 500 |
| InvoiceRoutes.PostCallsOnlyWhenValid | src/app/api/invoices/route.ts:86-115 | the invoice is created exactly when there is a caller, clientId is truthy, items is a non-empty array and subtotal, tax and total are numbers; the call passes the body and the caller; no caller answers 401 |
| InvoiceRoutes.PostGuardOrder | src/app/api/invoices/route.ts:96-108 | a missing client or empty item list answers the first 400 before the numbers are checked, and a non-number amount answers the second |
| InvoiceRoutes.PostIgnoresTotalMismatch | src/app/api/invoices/route.ts:103-115 | totals that do not add up are still accepted |
| ClientRoutes.GetClientsDispatch | src/app/api/clients/route.ts:12-31 | 401 exactly without a caller; otherwise a non-empty search wins and carries its term, then withCounts exactly "true" reads the counts, otherwise every client is read; each read is for the caller |
| ClientRoutes.GetClientsResponse | src/app/api/clients/route.ts:33-39 | the read list is returned as is; a failure answers 500 |
| ClientRoutes.PostClientGuard | src/app/api/clients/route.ts:44-61 | 401 without a caller; otherwise the client is created from the body as sent, for the caller, exactly when name, address, city, state and zipCode are all truthy |
| ClientRoutes.EmailNotRequired | src/app/api/clients/route.ts:54 | a body with the five fields and no email is accepted |
| ClientRoutes.PostClientResponse | src/app/api/clients/route.ts:61-68 | a created client answers 201 with it, a failure answers 500 |
| CourseRoutes.ByNameIsStrict | src/app/api/courses/route.ts:17 | the name ordering is a strict order |
| CourseRoutes.UserCoursesOrdered | src/app/api/courses/route.ts:13-19 | the list holds exactly the caller's courses, each once, ordered by name |
| CourseRoutes.RequestedName | src/app/api/courses/route.ts:38-47 | a requested name is non-empty and already trimmed |
| CourseRoutes.TrimIdempotent | src/app/api/courses/route.ts:47 | trimming twice is trimming once |
| CourseRoutes.FindCourse | src/app/api/courses/route.ts:50-55 | the found row is the caller's and matches the name up to case, and no earlier row does; none is found exactly when no row of the caller matches |
| CourseRoutes.PostNeedsUser | src/app/api/courses/route.ts:32-35 | without a caller the table is unchanged and the answer is 401 |
| CourseRoutes.PostAppendsAtMostOne | src/app/api/courses/route.ts:30-85 | a POST either leaves the table unchanged or appends exactly one row, the caller's with the trimmed name, when no course of the caller had that name up to case, answered with 201 |
| CourseRoutes.PostFindsExisting | src/app/api/courses/route.ts:55-66 | a name the caller already has up to case returns that course with 200 and inserts nothing |
| CourseRoutes.PostKeepsNamesDistinct | src/app/api/courses/route.ts:49-76 | no POST creates two courses of one user whose names match up to case |
| CourseRoutes.PostTwiceInsertsOnce | src/app/api/courses/route.ts:40-76 | posting the same name again, in any case and with any surrounding blanks, changes nothing |
| CourseRoutes.CourseTable.Create | src/app/api/courses/route.ts:30-86 | the table and the answer are those of one POST, and a table without duplicate names keeps none |
| ClientService.DbToClient | src/services/clientService.ts:31-53 | a mapped client always has a non-empty email |
| ClientService.DbToClientFields | src/services/clientService.ts:31-53 | id and name are kept; an empty or missing email reads as client-<id>@example.com and any other is kept; a billing address exists exactly when the billing street is non-empty and carries it, with a NULL billing city, state or zip read as ""; the course flag holds exactly when stored true; a zero or missing default price reads as absent |
| ClientService.Value | src/services/clientService.ts:116-189 | a bound value always has its column's type |
| ClientService.Defined | src/services/clientService.ts:116-189 | no more SET entries than columns considered, each value of its column's type |
| ClientService.BuildUpdate | src/services/clientService.ts:112-203 | one clause `<column> = $k` per defined field, numbered from $1 in column order, with the values in the same order and the id bound last as the final placeholder |
| ClientService.PushDefined | src/services/clientService.ts:112-189 | the loop pushes one numbered clause and one value per defined column, in order, and ends with the counter one past the last placeholder |
| ClientService.ColumnsDistinct | src/services/clientService.ts:116-189 | the builder considers each of the fourteen columns exactly once |
| ClientService.DefinedColumns | src/services/clientService.ts:116-189 | of distinct columns, a column gets a SET entry exactly when it is considered and its field is defined |
| ClientService.AssignmentsOnlyDefined | src/services/clientService.ts:116-189 | the statement sets a column exactly when the caller defined the corresponding field |
| ClientService.NoFieldsNoAssignments | src/services/clientService.ts:191-194 | there is no SET entry exactly when no field is defined |
| ClientService.BillingFourColumns | src/services/clientService.ts:176-189 | a defined billing address contributes exactly its four columns, last and in the order street, city, state, zip |
| ClientService.SetColumn | src/services/clientService.ts:198 | one SET entry makes its column hold the value and keeps every other column and the id, owner and timestamps |
| ClientService.ApplyAll | src/services/clientService.ts:198 | applying SET entries never changes the id, owner or timestamps |
| ClientService.ApplyDefinedCell | src/services/clientService.ts:198 | after the entries for distinct columns each column holds its new value if defined, else its old one |
| ClientService.UpdatedRowCell | src/services/clientService.ts:109-209 | the intended updated row holds each defined field's new value and otherwise the old one |
| ClientService.CellsDetermineRow | src/services/clientService.ts:10-28 | two rows agreeing on every column and on id, owner and timestamps are the same row |
| ClientService.ApplyAssignments | src/services/clientService.ts:196-205 | the statement's SET entries applied to a row replace exactly the defined fields |
| ClientService.FindRow | src/services/clientService.ts:68-72 | a found row is in the table with that id; none is found exactly when no row has it |
| ClientService.GetClientById | src/services/clientService.ts:67-73 | a client comes back exactly when some row has the id |
| ClientService.UpdateClientRows | src/services/clientService.ts:196-205 | an UPDATE with a SET entry touches only the rows with the id, and each of those gets its defined fields replaced and its update time set |
| ClientService.UpdateIfIdKeepsIds | src/services/clientService.ts:199 | the UPDATE never changes an id |
| ClientService.FindRowMap | src/services/clientService.ts:205-208 | after a change that keeps ids, the first match is the changed first match |
| ClientService.UpdateClientFound | src/services/clientService.ts:191-208 | the answer is empty exactly when no row has the id |
| ClientService.GetClientByIdMap | src/services/clientService.ts:205-208 | reading by id after a change that keeps ids reads the changed first match |
| ClientService.UpdateClientResult | src/services/clientService.ts:196-208 | after an UPDATE the answer is the first row with the id, with its defined fields replaced and its update time set |
| ClientService.UpdateClientReads | src/services/clientService.ts:205-208 | the answer equals reading the row back by id after the update |
| ClientService.UpdateClientAfter | src/services/clientService.ts:196-208 | with a SET entry the answer equals a read by id of the updated table |
| ClientService.UpdateIfIdOnMatch | src/services/clientService.ts:196-201 | a row with the id is updated to the intended row with the new update time |
| ClientService.UpdateNothingReadsBack | src/services/clientService.ts:191-194 | with no defined field nothing is written and the answer is the stored client |
| ClientService.DeleteClientGuard | src/services/clientService.ts:212-226 | the delete is refused, with its message, exactly when some invoice names the client, and then nothing is deleted; otherwise the rows with the id are gone and every other row stays, in order |
| ClientService.ByClientNameIsStrict | src/services/clientService.ts:233 | the name ordering is a strict order |
| ClientService.SearchRowsMatch | src/services/clientService.ts:229-238 | at most 50 rows, each a row of the table whose name contains the term ignoring case |
| ClientService.SearchRowsOrdered | src/services/clientService.ts:233 | the search results come in name order |
| ClientService.SearchRowsComplete | src/services/clientService.ts:229-238 | when no more than 50 rows match, every matching row is returned |
| ClientService.SearchRowsTop | src/services/clientService.ts:229-238 | `ORDER BY name ASC LIMIT 50` returns 50 rows, or every match when fewer match; the rows returned and the rows cut off together are all the matches, and no row cut off comes before a returned one by name |
| ClientService.ClientsWithInvoiceCountsOrdered | src/services/clientService.ts:245-253 | one entry per row of the table, in name order |
| ClientService.ClientsWithInvoiceCountsComplete | src/services/clientService.ts:245-259 | every row appears with the number of invoices naming it |
| ClientService.ClientsWithInvoiceCountsSound | src/services/clientService.ts:245-259 | every entry is a row of the table with the number of invoices naming it |
| ClientService.InvoiceCountZero | src/services/clientService.ts:248-250 | a count is 0 exactly when no invoice names the client |
| ClientService.ClientTable.Update | src/services/clientService.ts:109-209 | the table and answer are those of `UpdateClient` on the old table |
| ClientService.ClientTable.Delete | src/services/clientService.ts:212-226 | a refused delete leaves the table and reports the error; otherwise the table is the one with the client's rows removed |
| InvoiceService.TermsAsWritten | src/services/invoiceService.ts:108-113 | as written, terms exist exactly when the description is non-empty, and carry the days column even when it is NULL |
| InvoiceService.TermsOf | src/services/invoiceService.ts:108-113 | as intended, terms exist exactly when the days column is set and the description is non-empty, and then carry both |
| InvoiceService.TermsWithoutDays | src/services/invoiceService.ts:108-113 | a row with a description and a NULL days column gets terms without days as written, and none as intended |
| InvoiceService.TermsAgreeWithDays | src/services/invoiceService.ts:108-113 | whenever the days column is set, the written and the intended terms agree |
| InvoiceService.CourseOf | src/services/invoiceService.ts:114-121 | course information exists exactly for a non-empty course name, with missing id, cohort and dates read as "" |
| InvoiceService.DbToInvoice | src/services/invoiceService.ts:59-128 | id, number, status, amounts, issue and due dates, notes and the payment date, method and transaction id come from the invoice row, with amount equal to total; the client's name, address, city, state, zip code and tax id come from the joined client; each item keeps its id, description, quantity, price and amount; there is one attachment per attachment row, in order, with that row's name, size and type; the terms and the course details are those of `TermsOf` and `CourseOf` |
| InvoiceService.JoinClient | src/services/invoiceService.ts:137-142 | the joined client is a visible client row with the invoice's client id; none exactly when no such row exists |
| InvoiceService.JoinRow | src/services/invoiceService.ts:137-142 | an invoice joins exactly when it is visible and its client joins, and then pairs with that client |
| InvoiceService.JoinedIsReverseFilter | src/services/invoiceService.ts:131-148 | the joined invoices are exactly the joining ones in reverse creation order, each paired with its client |
| InvoiceService.JoinedRows | src/services/invoiceService.ts:131-148 | every result is a visible invoice with a visible client of its client id; every joining invoice is present; the order follows reverse creation |
| InvoiceService.GroupByKey | src/services/invoiceService.ts:184-200 | each key ends up with exactly its rows in their original order, and no key holds an empty group |
| InvoiceService.AllInvoicesItems | src/services/invoiceService.ts:131-210 | one invoice per joined row, newest first, each with exactly the visible item and attachment rows carrying its id, in their order; nothing when no invoice joins |
| InvoiceService.AllInvoicesNoItems | src/services/invoiceService.ts:206 | an invoice with no item rows of its own gets the empty item list |
| InvoiceService.BatchGroup | src/services/invoiceService.ts:154-207 | an id's group in the batched read is the same rows a single-invoice read would give |
| InvoiceService.FindJoined | src/services/invoiceService.ts:214-232 | the found row is a joining invoice with the id; none is found exactly when no invoice with the id joins |
| InvoiceService.GetInvoiceByIdSpec | src/services/invoiceService.ts:213-259 | null exactly when no visible invoice with the id joins a visible client; otherwise the invoice has that id and exactly its visible item rows, in order |
| InvoiceService.UpdateStatusEffect | src/services/invoiceService.ts:352-380 | matching rows get the status and all three payment fields, an absent one cleared; every other column and row is kept; items, clients and attachments are untouched |
| InvoiceService.UpdateStatusReadBack | src/services/invoiceService.ts:382 | the invoice read back carries the new status and payment fields and its unchanged items |
| InvoiceService.NewItemRows | src/services/invoiceService.ts:449-461 | one new row per item, in order, with consecutive ids |
| InvoiceService.UpdateInvoiceRollsBack | src/services/invoiceService.ts:391-492 | a failed update leaves every table and the id counter as they were; in this model, where the submitted invoice is complete, it fails only for a missing user id or a vanished invoice |
| InvoiceService.UpdateInvoiceNeedsUser | src/services/invoiceService.ts:449-452 | items without a user id to own them are refused and nothing is written |
| InvoiceService.UpdateInvoiceReplacesItems | src/services/invoiceService.ts:431-462 | after a successful update the caller's item rows for the invoice are exactly the new ones in the given order, and every other item row stays in order |
| InvoiceService.UpdateInvoiceRows | src/services/invoiceService.ts:394-429 | the UPDATE rewrites exactly the matching invoice rows with the new number, client, status and total and the update time; clients and attachments stay |
| InvoiceService.UpdateInvoiceUnscopedClearsItems | src/services/invoiceService.ts:436-486 | with no user id and no items every item row of the invoice is deleted, and it comes back with no items and no attachments |
| InvoiceService.UpdateForeignInvoiceAddsItems | src/services/invoiceService.ts:424-486 | a caller who does not own the invoice leaves its row unchanged, yet the new items are added to it under the caller's id |
| InvoiceService.DeleteWhere | src/services/invoiceService.ts:495-534 | deleting the rows that satisfy a condition keeps exactly the others, in order |
| InvoiceService.DeleteInvoiceAnswer | src/services/invoiceService.ts:511-532 | the answer is true exactly when a visible invoice with the id existed |
| InvoiceService.DeleteInvoiceEffect | src/services/invoiceService.ts:495-534 | afterwards no matching invoice, item or attachment is left, every other row stays in order, and the clients are untouched |
| InvoiceService.InvoiceStore.GetAll | src/services/invoiceService.ts:131-210 | the join, the batched item and attachment reads and the grouping give the specified invoices |
| InvoiceService.InvoiceStore.UpdateStatus | src/services/invoiceService.ts:352-383 | the tables and the answer are those of the status update; the id counter is unchanged |
| InvoiceService.InvoiceStore.Update | src/services/invoiceService.ts:386-492 | the tables, the id counter and the answer are those of one full update |
| InvoiceService.InvoiceStore.InsertItems | src/services/invoiceService.ts:443-462 | the loop succeeds exactly when there are no items or a user id; on success it appends one row per item and advances the counter by their number, otherwise nothing changes; the other tables stay |
| InvoiceService.InvoiceStore.Delete | src/services/invoiceService.ts:495-539 | the tables and the answer are those of one delete; the id counter is unchanged |
| InvoiceFormCommon.CalculateTotals | src/components/NewInvoiceForm.tsx:205-218 | the form's totals carry no tax and the total equals the subtotal |
| InvoiceFormCommon.TotalsNonNegative | src/components/NewInvoiceForm.tsx:205-218 | items with non-negative quantities and prices give a non-negative total |
| InvoiceFormCommon.WithoutIndexSplices | src/components/NewInvoiceForm.tsx:173-180 | filtering out an index removes exactly that position, or nothing when the index is out of range |
| InvoiceFormCommon.RemoveItemSpec | src/components/NewInvoiceForm.tsx:173-180 | the item list never becomes empty; with more than one item exactly the chosen item goes and the rest keep their order |
| InvoiceFormCommon.RemoveItemTotal | src/components/NewInvoiceForm.tsx:173-218 | removing an item takes exactly its amount off the total |
| InvoiceFormCommon.UpdateItemFrame | src/components/NewInvoiceForm.tsx:182-193 | an edit changes only the chosen field of the chosen item |
| InvoiceFormCommon.UpdateItemTotal | src/components/NewInvoiceForm.tsx:182-218 | an edit changes the total by the difference between the item's new and old amounts |
| InvoiceFormCommon.AddItem | src/components/NewInvoiceForm.tsx:163-171 | a blank item with quantity 1 and the given price is appended after the unchanged others, raising the total by that price |
| InvoiceFormCommon.DecodeEncodeTerms | src/components/NewInvoiceForm.tsx:550-566 | the select's `days-description` value decodes back to the terms for any non-negative or NaN days, whatever hyphens the description holds |
| InvoiceFormCommon.DecodeEncodeOptions | src/components/NewInvoiceForm.tsx:550-566 | every option the select offers decodes back to itself |
| InvoiceFormCommon.NegativeDaysLost | src/components/NewInvoiceForm.tsx:550-557 | a negative days count does not survive the round trip: its minus sign is read as the separator |
| InvoiceFormCommon.ItemErrorsAtEmpty | src/components/NewInvoiceForm.tsx:255-265 | one item's checks add nothing exactly when the item passes them |
| InvoiceFormCommon.ItemErrorsAtKey | src/components/NewInvoiceForm.tsx:255-265 | one item's checks add the `item-i-field` key of each field that fails, and no other key |
| InvoiceFormCommon.ItemErrorsKeeps | src/components/NewInvoiceForm.tsx:255-265 | the item loop never drops an error found before it |
| InvoiceFormCommon.ItemErrorsOtherKeys | src/components/NewInvoiceForm.tsx:255-265 | a key of no listed item is in the errors after the loop exactly when it was before |
| InvoiceFormCommon.ItemErrorsItemKey | src/components/NewInvoiceForm.tsx:255-265 | the key of a field of item i is added exactly when that item fails that check |
| InvoiceFormCommon.ItemErrorsEmptyIff | src/components/NewInvoiceForm.tsx:255-268 | the dictionary is empty after the loop exactly when it was empty before and every item passes |
| InvoiceFormCommon.CollectItemErrors | src/components/NewInvoiceForm.tsx:255-265 | the `forEach` builds exactly the item errors of the specification |
| InvoiceFormCommon.FormErrorsEmptyIff | src/components/NewInvoiceForm.tsx:220-269 | `validateForm` answers true exactly when every header, course and item check passes |
| InvoiceFormCommon.HeaderErrorsEmptyIff | src/components/NewInvoiceForm.tsx:223-253 | the header checks pass exactly when a client and both dates are set and, when checked, all four course fields are filled in |
| InvoiceFormCommon.HeaderErrorsNoItemKeys | src/components/NewInvoiceForm.tsx:223-253 | the header checks set no item key |
| InvoiceFormCommon.HeaderErrorsKeys | src/components/NewInvoiceForm.tsx:223-253 | the client, issued-date, due-date and course-name messages are present exactly when their field is empty |
| InvoiceFormCommon.CourseErrorsKeys | src/components/NewInvoiceForm.tsx:236-253 | the course check adds the course-name key for a blank name and touches no key outside the four course keys |
| InvoiceFormCommon.FormErrorsHeaderKeys | src/components/NewInvoiceForm.tsx:220-269 | in the whole dictionary, each header message is present exactly when its field is empty (a course field only when checked) |
| InvoiceFormCommon.FormErrorsItemKey | src/components/NewInvoiceForm.tsx:220-269 | in the whole dictionary, the message for a field of item i is present exactly when that item fails that check |
| InvoiceFormCommon.SubmittedItems | src/components/NewInvoiceForm.tsx:278-284 | every form item is sent, in order, with an `item-<stamp>-<index>` id, its fields and the amount quantity × price |
| InvoiceFormCommon.SubmittedAmountsSum | src/components/NewInvoiceForm.tsx:271-300 | the amounts of the sent items add up to the sent subtotal |
| InvoiceFormCommon.NotesOrNone | src/components/NewInvoiceForm.tsx:297 | empty notes are sent as undefined, other notes as they are |
| InvoiceFormCommon.BuildPayload | src/components/NewInvoiceForm.tsx:287-300 | the body carries the form's client, status and totals with no tax, and the sent item amounts sum to its total |
| NewInvoiceForm.DefaultPrice | src/components/NewInvoiceForm.tsx:111-125 | the price is the selected client's default unit price, or 0 when there is no such client or no default |
| NewInvoiceForm.WithAllPrices | src/components/NewInvoiceForm.tsx:377-391 | every item is set to the given price, nothing else changes |
| NewInvoiceForm.WithZeroPricesFilled | src/components/NewInvoiceForm.tsx:111-125 | only zero prices are replaced by the given price |
| NewInvoiceForm.SelectClientPrices | src/components/NewInvoiceForm.tsx:377-391 | choosing a client sets the client id and prices every item at that client's default, changing nothing else |
| NewInvoiceForm.ClientPriceEffectPrices | src/components/NewInvoiceForm.tsx:111-125 | the client effect keeps every non-zero price and gives each zero-priced item the default |
| NewInvoiceForm.ClientPriceEffectIdempotent | src/components/NewInvoiceForm.tsx:111-125 | running the client effect a second time changes nothing |
| NewInvoiceForm.EffectAfterSelect | src/components/NewInvoiceForm.tsx:111-125 | after a client is chosen in the select, the effect it triggers has nothing left to change |
| NewInvoiceForm.ValidatePassesIff | src/components/NewInvoiceForm.tsx:220-269 | the create form passes exactly when client and dates are set, the course fields are filled when the client requires them, and every item has a description, quantity at least 0.01 and a non-negative price |
| NewInvoiceForm.CourseOnlyWhenRequired | src/components/NewInvoiceForm.tsx:236-253 | a client without the course flag raises no course error |
| NewInvoiceForm.Submit | src/components/NewInvoiceForm.tsx:271-300 | a body is sent exactly when the form passes; it has the new number, the form's terms, totals that match its items, and course information exactly when the client requires it |
| NewInvoiceForm.InitialFormRejected | src/components/NewInvoiceForm.tsx:68-82 | the opening form cannot be submitted: it has no client and its one item has no description |
| NewInvoiceForm.Form.constructor | src/components/NewInvoiceForm.tsx:68-82 | the dialog starts with the given form, the fetched clients and no errors |
| NewInvoiceForm.Form.AddItem | src/components/NewInvoiceForm.tsx:163-171 | the form gains one blank item at the selected client's default price |
| NewInvoiceForm.Form.RemoveItem | src/components/NewInvoiceForm.tsx:173-180 | the item list loses the chosen item, never its last one |
| NewInvoiceForm.Form.UpdateItem | src/components/NewInvoiceForm.tsx:182-193 | only the chosen field of the chosen item changes |
| NewInvoiceForm.Form.ChooseClient | src/components/NewInvoiceForm.tsx:377-391 | the form becomes the client selection, which the price effect then leaves as it is |
| NewInvoiceForm.Form.ChoosePaymentTerms | src/components/NewInvoiceForm.tsx:550-557 | the form's terms become the decoded select value |
| NewInvoiceForm.Form.ValidateForm | src/components/NewInvoiceForm.tsx:220-269 | the shown errors become the form's error dictionary, and the answer is whether it is empty |
| EditInvoiceForm.DefaultTerms | src/components/EditInvoiceForm.tsx:94 | the fallback terms are Net 30 |
| EditInvoiceForm.ClientIdFor | src/components/EditInvoiceForm.tsx:87-90 | the client id is that of the first client with the invoice's client name, or "" |
| EditInvoiceForm.Populate | src/components/EditInvoiceForm.tsx:84-110 | the form takes the invoice's status, dates, notes, items and course information, with Net 30 and empty course fields as fallbacks |
| EditInvoiceForm.PopulateClient | src/components/EditInvoiceForm.tsx:87-90 | the form's client is the first client of that name, and none when no client has it |
| EditInvoiceForm.FirstByName | src/components/EditInvoiceForm.tsx:87 | the search by name finds the first client with that name |
| EditInvoiceForm.FindClientByNameNone | src/components/EditInvoiceForm.tsx:87 | the search by name finds nothing when no client has that name |
| EditInvoiceForm.QuantityInput | src/components/EditInvoiceForm.tsx:618-624 | a typed quantity is the parsed integer, with NaN and 0 both read as 1 |
| EditInvoiceForm.QuantityInputOfInt | src/components/EditInvoiceForm.tsx:618-624 | typing an integer other than 0 gives that integer |
| EditInvoiceForm.NegativeQuantityKept | src/components/EditInvoiceForm.tsx:618-624 | a typed negative quantity is kept and then fails the `quantity > 0` check |
| EditInvoiceForm.ValidatePassesIff | src/components/EditInvoiceForm.tsx:198-244 | the edit form passes exactly when client and dates are set, all four course fields are filled, and every item has a description, a positive quantity and a non-negative price |
| EditInvoiceForm.QuantityRulesDiffer | src/components/EditInvoiceForm.tsx:234-235 | the edit form accepts a quantity of 0.005 that the create form rejects |
| EditInvoiceForm.Submit | src/components/EditInvoiceForm.tsx:246-274 | a body is sent exactly when the form passes; it keeps the invoice number and always carries the course information |
| EditInvoiceForm.ResubmitUnchanged | src/components/EditInvoiceForm.tsx:84-274 | saving an untouched form resubmits the invoice's number, status and items |
| EditInvoiceForm.Form.constructor | src/components/EditInvoiceForm.tsx:65-82 | the dialog starts with the given form, the fetched clients and no errors |
| EditInvoiceForm.Form.Load | src/components/EditInvoiceForm.tsx:84-110 | the form becomes the one filled in from the invoice |
| EditInvoiceForm.Form.AddItem | src/components/EditInvoiceForm.tsx:144-149 | the form gains one blank item at price 0 |
| EditInvoiceForm.Form.RemoveItem | src/components/EditInvoiceForm.tsx:151-158 | the item list loses the chosen item, never its last one |
| EditInvoiceForm.Form.UpdateItem | src/components/EditInvoiceForm.tsx:160-170 | only the chosen field of the chosen item changes |
| EditInvoiceForm.Form.TypeQuantity | src/components/EditInvoiceForm.tsx:618-624 | the chosen item's quantity becomes the parsed input |
| EditInvoiceForm.Form.ChoosePaymentTerms | src/components/EditInvoiceForm.tsx:500-505 | the form's terms become the decoded select value |
| EditInvoiceForm.Form.ValidateForm | src/components/EditInvoiceForm.tsx:198-244 | the shown errors become the form's error dictionary, and the answer is whether it is empty |
| InvoiceList.FilteredExactly | src/components/InvoiceList.tsx:35-55 | the list shows exactly the invoices that pass both the status and the case-insensitive search filter, in their original order |
| InvoiceList.NoFilterShowsAll | src/components/InvoiceList.tsx:35-55 | with "all" and an empty search every invoice is shown |
| InvoiceList.StatusFilterExact | src/components/InvoiceList.tsx:36-37 | a status filter shows only invoices with that stored status, whatever the search |
| InvoiceList.ToLowerIdempotent | src/components/InvoiceList.tsx:38-52 | lower-casing twice is lower-casing once |
| InvoiceList.SearchIgnoresCase | src/components/InvoiceList.tsx:38-52 | the search matches the same invoices whatever the case of what is typed |
| InvoiceList.ActionFor | src/components/InvoiceList.tsx:158-181 | a paid invoice offers Mark Unpaid, a draft no button, a pending or overdue one Mark Paid |
| InvoiceList.MarkPaidCallback | src/components/InvoiceList.tsx:64-77 | Mark Paid opens the payment dialog when there is one, else changes the status to paid directly |
| InvoiceList.MarkUnpaidCallback | src/components/InvoiceList.tsx:79-86 | Mark Unpaid always changes the status to unpaid directly |
| InvoiceList.IconFor | src/components/InvoiceList.tsx:88-101 | there is no urgency icon exactly for low urgency |
| InvoiceList.SettledInvoicesHaveNoIcon | src/components/InvoiceList.tsx:88-101 | paid and draft invoices never get an urgency icon |
| InvoiceList.RowColourFor | src/components/InvoiceList.tsx:103-119 | the selected row is highlighted whatever its urgency; an unselected row is grey exactly at low urgency |
| InvoiceList.ReminderLine | src/components/InvoiceList.tsx:193-198 | the reminder line appears exactly for a stored overdue status, with the payment reminder text |
| InvoiceList.StoredOverdueNotYetDue | src/components/InvoiceList.tsx:193-198 | an invoice stored as overdue whose due date has not passed gets an empty reminder line |
| InvoiceList.Footer | src/components/InvoiceList.tsx:222-227 | the footer appears exactly for a non-empty list and shows 1 to the smaller of the count and 32, of the count |
| InvoiceManagement.OverdueTabCount | src/components/InvoiceManagement.tsx:53-84 | the overdue tab counts exactly the invoices the overdue rule accepts |
| InvoiceManagement.TabCountsFit | src/components/InvoiceManagement.tsx:58-84 | the draft, pending and paid counts never add up to more than the list, and neither do the draft, paid and overdue counts |
| InvoiceManagement.StatusTabsFit | src/components/InvoiceManagement.tsx:53-84 | the "all" tab counts the whole list, and the other tabs fit inside it as above |
| InvoiceManagement.ReplaceById | src/components/InvoiceManagement.tsx:103-111 | the update replaces every entry with the updated id and leaves every other entry in place |
| InvoiceManagement.RemoveByIdSpec | src/components/InvoiceManagement.tsx:191-194 | a delete keeps exactly the invoices with another id, in their order, and deleting again changes nothing |
| InvoiceManagement.SelectionAfterDeleteSpec | src/components/InvoiceManagement.tsx:197-202 | the deleted invoice is never left selected: its selection moves to the first remaining invoice or to none, and another selection is kept |
| InvoiceManagement.InitialSelection | src/components/InvoiceManagement.tsx:47-51 | with nothing selected the first invoice is selected; a selection is kept |
| InvoiceManagement.DuplicateTermDays | src/components/InvoiceManagement.tsx:226 | the duplicate's term days are the invoice's days, or 30 when the terms are missing or zero days |
| InvoiceManagement.DuplicateSpec | src/components/InvoiceManagement.tsx:212-265 | a duplicate fails exactly when no client has the invoice's client name; otherwise it is a draft under the new number issued today, due after the term days, with the same amounts, terms, course and items and no payment fields |
| InvoiceManagement.DueOnReceiptDuplicatedAsNet30 | src/components/InvoiceManagement.tsx:226-228 | "Due on Receipt" terms give the duplicate a due date 30 days after today |
| InvoiceManagement.Screen.constructor | src/components/InvoiceManagement.tsx:33-44 | the screen starts with the parent's list and nothing selected |
| InvoiceManagement.Screen.SelectFirst | src/components/InvoiceManagement.tsx:47-51 | the selection becomes the initial selection and the list is unchanged |
| InvoiceManagement.Screen.InvoiceCreated | src/components/InvoiceManagement.tsx:90-96 | with a listener, the new invoice is prepended and selected; without one nothing changes |
| InvoiceManagement.Screen.InvoiceUpdated | src/components/InvoiceManagement.tsx:103-111 | with a listener, the entry with that id is replaced and the updated invoice selected; without one nothing changes |
| InvoiceManagement.Screen.InvoiceDeleted | src/components/InvoiceManagement.tsx:191-202 | with a listener, the id is removed and a selection of it moves off it; without one nothing changes |
| FinancialReports.DateRange | src/components/FinancialReports.tsx:96-122 | every fixed period ends now and an unknown period is the last year; a custom range runs from its start (the epoch when missing) to its end (now when missing) |
| FinancialReports.InPeriodExact | src/components/FinancialReports.tsx:125-131 | exactly the invoices issued between the two ends, both included, are kept, in order |
| FinancialReports.ReversedRangeEmpty | src/components/FinancialReports.tsx:125-131 | a range whose start is after its end shows no invoice |
| FinancialReports.RateFacts | src/components/FinancialReports.tsx:149 | a paid share of a non-zero count is a percentage between 0 and 100, at 100 exactly when all are paid and at 0 exactly when none is |
| FinancialReports.CollectionRate | src/components/FinancialReports.tsx:149 | the collection rate lies in 0..100, is 100 exactly when there are invoices and all are paid, and 0 exactly when none is paid |
| FinancialReports.Summary | src/components/FinancialReports.tsx:134-160 | total revenue sums the paid totals, pending revenue the pending totals, overdue revenue the totals the overdue rule accepts; the counts and the collection rate follow |
| FinancialReports.CollectionRateExtremes | src/components/FinancialReports.tsx:134-160 | the summary's rate is 100 exactly when the list is non-empty and all paid, and 0 exactly when no invoice is paid |
| FinancialReports.OverdueRevenueSplit | src/components/FinancialReports.tsx:142-144 | overdue revenue is the past-due pending invoices plus the past-due invoices stored as overdue |
| FinancialReports.OverduePendingPart | src/components/FinancialReports.tsx:142-144 | the pending part of the overdue invoices is the past-due pending invoices |
| FinancialReports.OverdueStoredPart | src/components/FinancialReports.tsx:142-144 | the other part of the overdue invoices is the past-due invoices stored as overdue |
| FinancialReports.PastDuePendingCountedTwice | src/components/FinancialReports.tsx:134-146 | a past-due pending invoice counts in both the pending and the overdue revenue, and not in total revenue |
| FinancialReports.ReplaceFirst | src/components/FinancialReports.tsx:205 | a one-character `replace` changes only the first occurrence of the character, and nothing when it does not occur |
| FinancialReports.CapitalizeWords | src/components/FinancialReports.tsx:205 | exactly the characters that start a word are upper-cased, all others kept |
| FinancialReports.CapitalizeWordsIdempotent | src/components/FinancialReports.tsx:205 | capitalising a second time changes nothing |
| FinancialReports.SplitFirst | src/components/FinancialReports.tsx:205 | splitting a text before its first character does not change it |
| FinancialReports.ReplaceFirstAt | src/components/FinancialReports.tsx:205 | the first underscore, after a part without one, becomes a space and the rest is kept |
| FinancialReports.CapitalizeBeforeSpace | src/components/FinancialReports.tsx:205 | before a space, capitalising the whole text capitalises the part before it |
| FinancialReports.CapitalizeAfterSpace | src/components/FinancialReports.tsx:205 | after a space, capitalising the whole text capitalises the part after it |
| FinancialReports.CapitalizeAtSpace | src/components/FinancialReports.tsx:205 | the space itself is kept |
| FinancialReports.CapitalizeAroundSpace | src/components/FinancialReports.tsx:205 | a space separates words, so capitalisation splits around it |
| FinancialReports.CapitalizeOneWord | src/components/FinancialReports.tsx:205 | a run of word characters has only its first character upper-cased |
| FinancialReports.OneWordLabel | src/components/FinancialReports.tsx:205 | a one-word method key such as `paypal` is shown capitalised |
| FinancialReports.TwoWordLabel | src/components/FinancialReports.tsx:205 | a two-word key such as `bank_transfer` is shown as two capitalised words |
| FinancialReports.UnderscoreJoins | src/components/FinancialReports.tsx:205 | an underscore is a word character, so after a second underscore no new word starts |
| FinancialReports.PaymentMethodsData | src/components/FinancialReports.tsx:195-216 | the loop filling the record and the sort of its values give the specified rows |
| FinancialReports.PaymentMethodRowsCorrect | src/components/FinancialReports.tsx:195-216 | one entry per method key of the paid invoices with a method, each holding the sum and number of their totals, counts adding up to those invoices, rows ordered by amount, largest first |
| FinancialReports.OutstandingInvoices | src/components/FinancialReports.tsx:219-242 | the loop pushing one row per outstanding invoice and the sort give the specified rows |
| FinancialReports.OutstandingIff | src/components/FinancialReports.tsx:223 | an invoice is outstanding exactly when it is pending, or stored as overdue and past its due date |
| FinancialReports.OutstandingLabel | src/components/FinancialReports.tsx:226-237 | a row is labelled overdue exactly when at least one whole day has passed since the due date, and pending otherwise |
| FinancialReports.OutstandingRowsCorrect | src/components/FinancialReports.tsx:219-242 | the rows are exactly those of the outstanding invoices, one each, taken from all invoices |
| FinancialReports.OutstandingRowsOrdered | src/components/FinancialReports.tsx:241 | the rows are listed most days overdue first |
| FinancialReports.OutstandingRowsLabelled | src/components/FinancialReports.tsx:226-237 | each row is labelled overdue exactly when its days overdue are positive |
| FinancialReports.StoredOverdueNotYetDueLeftOut | src/components/FinancialReports.tsx:222-224 | an invoice stored as overdue whose due date has not passed is not listed |
| FinancialReports.CashFlowForecastCovers | src/components/FinancialReports.tsx:245-253 | the forecast sums exactly the pending invoices due at most 90 days from now |
| FinancialReports.PastDueInForecast | src/components/FinancialReports.tsx:245-253 | a pending invoice already past due stays in the forecast |
| FinancialReports.CourseRowOf | src/components/FinancialReports.tsx:256-275 | a course row is always invoiced, paid exactly for a paid invoice, and has "N/A" or "None" for each blank course field |
| FinancialReports.CourseRows | src/components/FinancialReports.tsx:256-275 | one row is pushed per invoice with course details |
| FinancialReports.ByCourseNameIsStrict | src/components/FinancialReports.tsx:276 | the comparison by course name is a strict order |
| FinancialReports.CourseReportData | src/components/FinancialReports.tsx:256-277 | the loop pushing the rows and the sort give the specified report |
| FinancialReports.CourseRowsFrom | src/components/FinancialReports.tsx:256-275 | every pushed row comes from an invoice with course details, and every such invoice has its row |
| FinancialReports.CourseReportOrdered | src/components/FinancialReports.tsx:256-277 | the report is a permutation of the pushed rows, one per invoice with course details, ordered by course name |
| FinancialReports.CourseReportRows | src/components/FinancialReports.tsx:256-277 | each report row has the fields of an invoice with course details, and each such invoice has its row |
| FinancialReports.QuoteDoesNotEscape | src/components/FinancialReports.tsx:302 | embedded double quotes are not doubled, unlike section 2 of RFC 4180: a cell holds exactly two more quotes than its content |
| FinancialReports.CsvLineReads | src/components/FinancialReports.tsx:302 | a line of cells without commas or line breaks has no line break and splits back into its cells |
| FinancialReports.CsvRoundTrip | src/components/FinancialReports.tsx:302 | when no cell holds a comma or a line break the exported text reads back as the table it was made from |
| FinancialReports.CourseCells | src/components/FinancialReports.tsx:289-299 | a course line has nine cells, with Y exactly for invoiced and for paid rows |
| FinancialReports.CourseCsvTable | src/components/FinancialReports.tsx:284-300 | the course file has four heading lines and then one line per course row |
| FinancialReports.FinancialCsvTable | src/components/FinancialReports.tsx:315-328 | the financial file has twelve heading lines, the collection rate to one decimal, and one line per outstanding invoice |
| FinancialReports.ExportContent | src/components/FinancialReports.tsx:281-340 | the course report exports the course file, every other report the financial file |

## Left out

- The clock, `Date.now()` and date parsing. `now`, `today` and already-parsed timestamps are parameters.
- The fresh `TRX-` transaction id of `markAsPaid`. It is an opaque parameter.
- The local-time calendar. `getMonth` and `getFullYear` in the analytics, and `setMonth` and `setFullYear` for the report periods, are function parameters.
- Rendering a timestamp as `YYYY-MM-DD` or as a localized date, for the form dates, the reminder due text and `toLocaleDateString`. These are parameters.
- `PaymentTermsUtil.CalculateDueDate`: the due date is exactly days × 86400000 ms after the issue date, so daylight-saving shifts are not modelled.
- PaymentService.GetDueSoonInvoices: the end of the window is exactly `daysAhead` × 86400000 ms after now. The code moves the local calendar day with `setDate`, which differs by an hour across a daylight-saving change; that shift is not modelled.
- InvoiceService.UpdateInvoice: the submitted invoice is complete (`InvoiceData`: number, status, amounts and both dates always present). The code takes a `Partial<Invoice>` with a `clientId`, which the PUT route forwards whenever `clientId` is truthy, and binds every missing field as NULL; a falsy issue, due or payment date also binds NULL. Such bodies, and any failure the NULL write causes, are not modelled.
- InvoiceService.InvoiceStore.Update: the same complete-body assumption as `InvoiceService.UpdateInvoice`.
- InvoiceService.UpdateInvoiceRollsBack: its "fails only for a missing user id or a vanished invoice" holds for complete bodies, under the assumption stated for `InvoiceService.UpdateInvoice`.
- InvoiceService.DbToInvoice: builds the terms with the corrected `TermsOf` (see Findings), so an invoice read from a row whose days column is NULL has no terms. The code as written gives it terms without days (`TermsAsWritten`); the invoice record keeps a plain number of days and cannot hold that.
- BackupImport.InsertOrSkip: the only insert failure modelled is a NULL id. A null entry fails earlier, in `InsertAll`, when its properties are read. Failures from NOT NULL columns, foreign keys or wrongly typed values, which roll the import back in the code, are not modelled.
- Invalid dates and `NaN` timestamps. A timestamp is always a number here.
- The NaN days value of a form's terms is kept (`FormTerms.days` is an `Option`). Other NaN arithmetic is not modelled.
- Currency and number formatting (`Intl.NumberFormat`, `toFixed`): their output is a parameter, not computed.
- The monthly revenue chart of the reports screen (src/components/FinancialReports.tsx:163-192). Its keys are locale month names, and it is sorted by re-parsing them.
- The `averageInvoiceValue` field of the revenue summary: the code does not promise anything about it.
- `localeCompare` ordering of the course report. It is approximated by code-point order (`Strings.LexLess`).
- The database collation of `ORDER BY name`. It is approximated by the same code-point order.
- `Object.entries` lists integer-like keys first. Grouping keeps keys in first-insertion order, which differs for client names or method keys that are canonical integers.
- Analytics.GroupByClientCorrect: a client name that is an inherited `Object.prototype` member (`constructor`, `toString`, `valueOf`, `hasOwnProperty`, `__proto__` and the others) gets an entry with its true sum here. In the code `!acc[name]` finds the inherited member, so no own entry is made, the sums are written onto the inherited object, and `Object.entries` leaves the name out. Such names are not modelled.
- Analytics.GroupByClient: the same gap for `Object.prototype` member names as `Analytics.GroupByClientCorrect`.
- Analytics.GetTopClients: can list a client named after an `Object.prototype` member, which the code never lists (see `Analytics.GroupByClientCorrect`).
- FinancialReports.PaymentMethodRowsCorrect: a payment method named after an `Object.prototype` member gets a row here; in the code `!methodData[method]` finds the inherited member and `Object.values` leaves it out. Such method names are not modelled.
- FinancialReports.MethodGroups: the same gap for `Object.prototype` member names as `FinancialReports.PaymentMethodRowsCorrect`.
- FinancialReports.PaymentMethodsData: the same gap for `Object.prototype` member names as `FinancialReports.PaymentMethodRowsCorrect`.
- ClientService.DbToClient: a NULL billing city, state or zip under a non-empty billing street reads as "". The code's `!` is only a type assertion, so it returns `null` there; the client record keeps these fields as plain strings. An imported client with a street and an empty city is stored that way (`|| null` in the import route).
- ClientService.DbToClientFields: states the "" default of `ClientService.DbToClient` for a NULL billing city, state or zip, not the code's `null`.
- ILIKE wildcards (`%`, `_`) typed into a client search are matched literally, as case-insensitive text.
- Lower-casing and upper-casing cover ASCII letters only.
- The import endpoint takes one `nowIso` per call; the code asks the clock again for each row.
- `ClearReplacesClients`: states the effect of `clearExisting` for the clients table only. The other two tables are cleared by the same code.
- The boolean that `deleteClient` returns: it reads rows from a DELETE without RETURNING, so the code promises no value. Only the guard and the effect on the table are stated.
- `createInvoice` of the invoice service is not part of this model.
- The routes pass a user id to `updateClient`, which ignores it in its SQL. The model does the same and states nothing else about it.
- The payment-confirmation handler of the invoice screen (src/components/InvoiceManagement.tsx:118-178). It is an async fetch chain that reuses `handleInvoiceUpdated`, which is modelled.
- `handlePaymentStatusChangeLocal` (src/components/InvoiceManagement.tsx:289-307) and `handleEditInvoice`. They only forward to the parent and `PaymentService`, or open a dialog.
- `updateCourseInfo` in both forms. It is a one-field record update of the course details.
- The due-date effects of both forms (src/components/NewInvoiceForm.tsx:94-108, src/components/EditInvoiceForm.tsx:112-120). They depend on rendering a timestamp as text.
- `handleClose` resets the new-invoice form to its initial state. It is modelled by `NewInvoiceForm.InitialForm` only.
- Fetches, JSON serialisation, `localStorage` beyond the counter's two slots, file downloads and `FileReader`, `window.print`, PDF generation and the charts: these are I/O.
- Authentication (JWT and Firebase token decoding). The caller is "a user id or none".
- SQL text and the connection pool. Tables are sequences or maps, and a transaction is a snapshot that is committed or restored.
- Concurrency: React state batching, async handlers, races between browser tabs on the counter, and concurrent requests.
- The presentation components and API glue (dashboard, reminders page, settings, client management, PDF, the export and settings routes).

## Findings

| source | as written | input that shows it | evidently intended | confidence | as-written member | corrected member |
|---|---|---|---|---|---|---|
| src/services/invoiceService.ts:108-113 | `payment_terms_days !== undefined` is always true for a row read from the database, because a NULL column arrives as `null`. So only the description decides whether terms exist, and a NULL days value is carried into them. | a row with `payment_terms_days` NULL and `payment_terms_description` "Net 30" gets terms `{ days: null, description: "Net 30" }` (`InvoiceService.TermsWithoutDays`) | terms only when both the days and a non-empty description are present | not executed | InvoiceService.TermsAsWritten | InvoiceService.TermsOf |
