# Garage job-card front end, modelled in Dafny

This project models the logic inside the screens of a garage-management web front end
(vainikkk/garageJobCardFE). The front end keeps job cards, customers, vehicles,
mechanics, a service catalogue and a parts inventory. Its logic lives in component
handlers:

- the daily report buckets and their plain-text and WhatsApp renderings;
- the quick-update dialog and the job-card details page, with their WhatsApp notices;
- the wa.me share links;
- the new-job-card wizard;
- the service catalogue, its selection lists and its forms;
- the customer, vehicle and inventory forms, with their add-or-replace saves;
- the list pages with their search filters;
- the details pages with their lookups;
- the report generator and the bottom navigation.

One Dafny module stands for each source file. Component state becomes a class whose
methods change its fields and state the whole new state in their `ensures`. Pure
expressions become functions. The `forEach`/`+=` builders become methods with loops, each
proved against a specification function; the inventory's filter pipeline is a method of
staged filters, as in the source, proved equal to one filter by the combined test. Shared modules:

- `Wrappers`: Option and Result.
- `Text`: ASCII case mapping, substring search, digits, decimal text and its parsing
  (including JavaScript's `parseInt`), split/join, and lines.
- `Collections`: filter, replace-by-key, remove-by-key, find, distinct, sums.
- `Entities`: the records.
- `Store`: `localStorage` as an object with one optional list per key.
- `Records`: the id format and the add-or-replace save shared by the three forms.
- `Selection`: the toggle-by-id selection shared by the two service lists.

Things outside the program become parameters:

- the clock and midnight timestamps, and `Math.random()` (as a number below 10000);
- `formatCurrency`, `encodeURIComponent` and the date/time formatters;
- `Number()` on the price fields, and zod's email check;
- the mock data lists the pages read.

Amounts are whole rupees.

## Model

| member | source | states |
|---|---|---|
| DailyReport.ComputeBuckets | src/components/reports/DailyReport.jsx:34-66 | each of the five buckets is the `filter` of the input by its own test, so it lists exactly the jobs passing it, in input order and with repeats kept: pending or in progress; completed at or after today's midnight; completed in yesterday's window; unpaid or partially paid; in this month and year |
| DailyReport.CompletedBucketsDisjoint | src/components/reports/DailyReport.jsx:36-45 | both completed buckets hold only completed jobs, and no job is in both |
| DailyReport.PaymentPendingOverlapsPending | src/components/reports/DailyReport.jsx:34-49 | the payment bucket ignores status, so a job can be both payment-pending and pending |
| DailyReport.MonthlySums | src/components/reports/DailyReport.jsx:52-66 | revenue plus pending payments is the month's total amount; a paid job adds only to revenue |
| DailyReport.NoJobsEmptyReport | src/components/reports/DailyReport.jsx:34-66 | with no job cards every bucket is empty and both sums are 0 |
| DailyReport.PendingLinesEntries | src/components/reports/DailyReport.jsx:75-77 | line k of the pending section is pending job k's line (id, customer, vehicle, status), and every such line starts "- #" |
| DailyReport.CompletedLinesEntries | src/components/reports/DailyReport.jsx:80-88 | line k of a completed section is completed job k's line (id, customer, vehicle, formatted amount), and every such line starts "- #" |
| DailyReport.DueLinesEntries | src/components/reports/DailyReport.jsx:95-97 | line k of the payment section is unpaid job k's line (id, customer, formatted amount), and every such line starts "- #" |
| DailyReport.ReportTextLines | src/components/reports/DailyReport.jsx:68-100 | the report's lines: title, date, the four headed sections with their job lines and the monthly summary, in the order the handler appends them; ReportTextLayout and the section lemmas state the positions |
| DailyReport.GenerateReportText | src/components/reports/DailyReport.jsx:68-100 | the text the `+=` loops build is the report's lines joined by line breaks |
| DailyReport.ReportTextLayout | src/components/reports/DailyReport.jsx:70-97 | the title, the date and the blank line before each section are at fixed places in the report's lines |
| DailyReport.PendingSection | src/components/reports/DailyReport.jsx:72-77 | line 3 is "PENDING JOBS (N):" with N the number of pending jobs, and the next N lines are exactly their job lines |
| DailyReport.CompletedTodaySection | src/components/reports/DailyReport.jsx:79-82 | right after the pending lines and a blank line comes "COMPLETED TODAY (N):" with N the bucket's length, followed by exactly its N job lines |
| DailyReport.CompletedYesterdaySection | src/components/reports/DailyReport.jsx:84-87 | after today's lines and a blank line comes "COMPLETED YESTERDAY (N):" with N the bucket's length, followed by exactly its N job lines |
| DailyReport.PaymentPendingSection | src/components/reports/DailyReport.jsx:89-97 | after the five-line summary block and a blank line comes "PAYMENT PENDING JOBS (N):" with N the bucket's length, followed by exactly its N job lines |
| DailyReport.SectionPreview | src/components/reports/DailyReport.jsx:202-235 | the preview shows the fixed sentence for an empty bucket; otherwise it shows the first min(3, n) jobs, plus "+ k more jobs" with k = n - 3 exactly when n > 3 |
| DailyReport.PreviewAccountsForAll | src/components/reports/DailyReport.jsx:202-212 | the shown jobs plus the "more" count make up the whole bucket |
| DailyReport.DailyReportPanel.constructor | src/components/reports/DailyReport.jsx:15-18 | the initial state: time '18:00', period 'today', share dialog closed, no owner number |
| DailyReport.DailyReportPanel.GenerateReport | src/components/reports/DailyReport.jsx:110-120 | an empty owner phone gives the error and leaves the dialog closed; otherwise the dialog opens |
| DailyReport.DailyReportPanel.SetOwnerPhoneNumber | src/components/reports/DailyReport.jsx:142 | the owner's number becomes the typed text; the time, the period and the dialog flag are unchanged |
| DailyReport.PanelShareMessage | src/components/reports/DailyReport.jsx:264-269 | the dialog opened from the panel gets daily-report mode but no report data and no job card, so its message is empty |
| WhatsAppShare.ShareLink | src/components/dialogs/WhatsAppShare.jsx:112-128 | refused, with the error, unless the raw number has at least 10 characters; otherwise the link is "https://wa.me/" + the number's digits + "?text=" + the encoded message |
| WhatsAppShare.ShareLinkRoundTrip | src/components/dialogs/WhatsAppShare.jsx:124-128 | reading an accepted link back gives exactly the number's digits and the encoded message |
| WhatsAppShare.PendingItems | src/components/dialogs/WhatsAppShare.jsx:24-28 | two lines per pending job |
| WhatsAppShare.PendingItemsEntries | src/components/dialogs/WhatsAppShare.jsx:24-28 | lines 2k and 2k + 1 are pending job k's, the first numbered "k+1. " with id, customer and vehicle, the second with status and mechanic |
| WhatsAppShare.CompletedItems | src/components/dialogs/WhatsAppShare.jsx:37-41 | two lines per job completed today |
| WhatsAppShare.CompletedItemsEntries | src/components/dialogs/WhatsAppShare.jsx:37-41 | lines 2k and 2k + 1 are completed job k's, the first numbered "k+1. " with id, customer and vehicle, the second with the formatted amount |
| WhatsAppShare.DueItems | src/components/dialogs/WhatsAppShare.jsx:57-59 | two lines per unpaid job |
| WhatsAppShare.DueItemsEntries | src/components/dialogs/WhatsAppShare.jsx:57-59 | lines 2k and 2k + 1 are unpaid job k's, the first numbered "k+1. " with id and customer, the second with the formatted amount due |
| WhatsAppShare.FormatReportForWhatsApp | src/components/dialogs/WhatsAppShare.jsx:18-69 | the message the `+=` loops build is the report lines, then "Generated on:" and the timestamp |
| WhatsAppShare.AppendPending | src/components/dialogs/WhatsAppShare.jsx:23-31 | appends the pending block: its numbered entries, or 'No pending jobs.' |
| WhatsAppShare.AppendCompleted | src/components/dialogs/WhatsAppShare.jsx:36-45 | appends the completed block: its numbered entries, or 'No jobs completed today.' |
| WhatsAppShare.AppendDue | src/components/dialogs/WhatsAppShare.jsx:56-63 | appends the payments block: its numbered entries, or 'No pending payments.' |
| WhatsAppShare.ReportLayout | src/components/dialogs/WhatsAppShare.jsx:19-66 | the message has 13 fixed lines plus its three list blocks; it opens with the title, a blank line and PENDING JOBS, and closes with the blank line before the timestamp |
| WhatsAppShare.ReportHeaders | src/components/dialogs/WhatsAppShare.jsx:33-56 | COMPLETED TODAY, MONTHLY SUMMARY and PAYMENT PENDING JOBS follow in that order, each after a blank line that closes the block before it |
| WhatsAppShare.ReportBlocks | src/components/dialogs/WhatsAppShare.jsx:22-63 | under each header comes exactly its block: the pending list, today's completed list, the three summary lines (Total Jobs, Total Revenue, Pending Payments), the unpaid list |
| WhatsAppShare.BlockShape | src/components/dialogs/WhatsAppShare.jsx:24-63 | a block is the fixed sentence exactly when its list is empty; otherwise entry k's first line starts with its number |
| WhatsAppShare.ReportMessage | src/components/dialogs/WhatsAppShare.jsx:18-69 | the report message: the report's lines joined by line breaks, then the "Generated on:" line; FormatReportForWhatsApp and ReportMessageLines are proved against it |
| WhatsAppShare.ReportMessageLines | src/components/dialogs/WhatsAppShare.jsx:18-69 | split at its line breaks, the message gives back the report lines and the "Generated on:" line |
| WhatsAppShare.MessageTemplate | src/components/dialogs/WhatsAppShare.jsx:71-110 | the message is empty exactly when it is not daily-report mode with data and there is no job card |
| WhatsAppShare.TemplateChoice | src/components/dialogs/WhatsAppShare.jsx:71-110 | daily-report mode with data gives the report; otherwise, with a card, completion and payment-reminder modes give their own templates and any other mode gives the job update |
| WhatsAppShare.CompletionMessage | src/components/dialogs/WhatsAppShare.jsx:79-88 | the completion template: its fixed text with the customer, registration and formatted total filled in; CompletionMentions states what it names |
| WhatsAppShare.PaymentReminderMessage | src/components/dialogs/WhatsAppShare.jsx:90-97 | the payment-reminder template with the customer, the formatted total and the card id filled in; PaymentReminderMentions states what it names |
| WhatsAppShare.JobUpdateMessage | src/components/dialogs/WhatsAppShare.jsx:99-108 | the job-update template with the card, customer, vehicle, status and total filled in; JobUpdateMentions states what it names |
| WhatsAppShare.CompletionMentions | src/components/dialogs/WhatsAppShare.jsx:79-88 | the completion notice names the customer, the registration and the formatted total |
| WhatsAppShare.PaymentReminderMentions | src/components/dialogs/WhatsAppShare.jsx:90-97 | the reminder names the customer, the formatted total and "#" + the card id |
| WhatsAppShare.JobUpdateMentions | src/components/dialogs/WhatsAppShare.jsx:99-108 | the job update starts "Job Card Update #" and names the card, customer, vehicle, status and total |
| WhatsAppShare.DialogTitle | src/components/dialogs/WhatsAppShare.jsx:138-150 | one title per known mode, and 'Share via WhatsApp' exactly for every other mode |
| WhatsAppShare.ShareDialog.constructor | src/components/dialogs/WhatsAppShare.jsx:8-16 | the number starts as the given one or ''; the mode defaults to 'jobUpdate'; the card, the report data and the open flag are the props |
| WhatsAppShare.ShareDialog.Share | src/components/dialogs/WhatsAppShare.jsx:112-136 | the outcome is the share link of the mode's message; the dialog closes only when the link was built |
| WhatsAppShare.ShareDialog.SetPhoneNumber | src/components/dialogs/WhatsAppShare.jsx:169 | the number becomes the typed text, as typed; the dialog stays as it was |
| QuickUpdate.SaveIntent | src/components/jobcard/QuickUpdate.jsx:41-49 | completion exactly when the card has just become completed; the payment reminder exactly when it has just begun awaiting payment; otherwise none, so at most one notice |
| QuickUpdate.UnchangedStatusNoIntent | src/components/jobcard/QuickUpdate.jsx:41-49 | saving with the status unchanged offers no notice |
| QuickUpdate.OtherStatusNoIntent | src/components/jobcard/QuickUpdate.jsx:41-49 | moving to any status but completed or awaiting payment offers no notice |
| QuickUpdate.QuickUpdateDialog.constructor | src/components/jobcard/QuickUpdate.jsx:11-15 | the initial field values |
| QuickUpdate.QuickUpdateDialog.Sync | src/components/jobcard/QuickUpdate.jsx:17-23 | a card copies its status, notes and payment status into the fields; no card changes nothing |
| QuickUpdate.QuickUpdateDialog.SetStatus | src/components/jobcard/QuickUpdate.jsx:71 | the status becomes the chosen value; the notes, the payment status, the card and the dialog flags are unchanged |
| QuickUpdate.QuickUpdateDialog.SetPaymentStatus | src/components/jobcard/QuickUpdate.jsx:87 | the payment status becomes the chosen value; everything else is unchanged |
| QuickUpdate.QuickUpdateDialog.SetNotes | src/components/jobcard/QuickUpdate.jsx:104 | the notes become the typed text; everything else is unchanged |
| QuickUpdate.QuickUpdateDialog.Save | src/components/jobcard/QuickUpdate.jsx:25-50 | without a card nothing happens and there is no toast; otherwise the patch is exactly status, notes, payment status and the time, the dialog closes, the toast is "Job Card #<id> has been updated", and the chosen notice opens |
| QuickUpdate.QuickUpdateDialog.NotifyCustomer | src/components/jobcard/QuickUpdate.jsx:52-56 | with a card it always opens the job-update notice |
| JobCardDetails.MechanicLabel | src/pages/JobCardDetails.jsx:28-43 | 'Not assigned' without an id, the first mechanic's name with that id, 'Unknown Mechanic' when none has it |
| JobCardDetails.Merge | src/pages/JobCardDetails.jsx:88-97 | the patch's fields win over the card's, the other fields are kept, and updatedAt is the time |
| JobCardDetails.MergeEmpty | src/pages/JobCardDetails.jsx:88-97 | an empty patch only moves the time stamp |
| JobCardDetails.MergeTwice | src/pages/JobCardDetails.jsx:88-97 | two updates in a row are one update with the later patch over the earlier |
| JobCardDetails.MergeIdempotent | src/pages/JobCardDetails.jsx:88-97 | applying the same patch again changes only the time stamp |
| JobCardDetails.WithStatus | src/pages/JobCardDetails.jsx:75-86 | a status update changes only status and updatedAt |
| JobCardDetails.QuickUpdateUnedited | src/pages/JobCardDetails.jsx:88-97 | a quick update saved without edits changes only the time stamp |
| JobCardDetails.ShareMessage | src/pages/JobCardDetails.jsx:114-127 | '' without a card; otherwise the seven head lines joined by line breaks and the payment line; ShareMessageLines reads it back |
| JobCardDetails.ShareMessageLines | src/pages/JobCardDetails.jsx:114-127 | the share message reads back as its seven lines; the payment line is the status split at '-', capitalised and joined with spaces |
| JobCardDetails.MenuService | src/pages/JobCardDetails.jsx:213-218 | the name is the custom name, else the description, else 'Service'; the price is the cost, or 0 |
| JobCardDetails.FormattedServices | src/pages/JobCardDetails.jsx:213-218 | one entry per stored service, in order; none when there is no list |
| JobCardDetails.MenuData | src/pages/JobCardDetails.jsx:409-417 | the menu receives the card's id, customer, total and formatted services |
| JobCardDetails.JobCardDetailsPage.constructor | src/pages/JobCardDetails.jsx:27-31 | no card, mechanic 'Not assigned', and all three dialogs closed |
| JobCardDetails.JobCardDetailsPage.Load | src/pages/JobCardDetails.jsx:33-45 | a found card replaces the shown one, and sets the mechanic's name only when an id is assigned |
| JobCardDetails.JobCardDetailsPage.UpdateStatus | src/pages/JobCardDetails.jsx:75-86 | with a card, only its status and time change, and the toast names the new status's label; without a card nothing changes |
| JobCardDetails.JobCardDetailsPage.UpdateJobCard | src/pages/JobCardDetails.jsx:88-97 | with a card, the card becomes the merge of the patch |
| JobCardDetails.JobCardDetailsPage.OpenWhatsAppShare | src/pages/JobCardDetails.jsx:99-102 | opens the job-update dialog and changes nothing else |
| JobCardDetails.JobCardDetailsPage.ConfirmShare | src/pages/JobCardDetails.jsx:104-141 | the share link of the card's message; the dialog closes only on success |
| JobCardDetails.OpenPage | src/pages/JobCardDetails.jsx:27-45 | a freshly opened page shows the first card with the id and that card's mechanic label |
| Utils.StatusColor | src/lib/utils.js:9-24 | one of the known classes, and gray exactly for an unknown status |
| Utils.StatusColorInjective | src/lib/utils.js:9-24 | different known statuses get different colours |
| Utils.PaymentStatusColor | src/lib/utils.js:49-60 | paid, partially paid and unpaid have classes; gray exactly for anything else |
| Utils.PaymentStatusColorInjective | src/lib/utils.js:49-60 | different known payment statuses get different colours |
| Utils.StatusLabel | src/lib/utils.js:27-36 | 'In Progress' and 'Awaiting Payment' for the two hyphenated statuses; for any other status the first letter upper-cased and the rest unchanged; the length is kept |
| Utils.PaymentStatusLabel | src/lib/utils.js:63-68 | same length as the status, no '-', each '-' turned into a space, each word's first letter upper-cased |
| Utils.LabelWordsAgree | src/lib/utils.js:63-68 | split at '-', capitalise each part and join with spaces gives the same label as character by character |
| Utils.StatusLabelMatchesPaymentStyle | src/lib/utils.js:27-68 | on a status without '-' the two label helpers agree |
| WhatsAppShareDialog.DialogMessage | src/components/dialogs/WhatsAppShareDialog.jsx:20-30 | the head lines, one line per service, a blank line, with line breaks between, then the total line; BuildMessage is proved equal to it and DialogMessageLines reads it back |
| WhatsAppShareDialog.BuildMessage | src/components/dialogs/WhatsAppShareDialog.jsx:20-30 | the message built with `+=` is the head lines, one line per service, a blank line and the total |
| WhatsAppShareDialog.DialogMessageLines | src/components/dialogs/WhatsAppShareDialog.jsx:20-30 | read back line by line: "Job Card #id - customer", the vehicle, a blank line, "Services:", one "- name: ₹price" line per service in order, a blank line, the total |
| WhatsAppShareDialog.DialogMessageEnds | src/components/dialogs/WhatsAppShareDialog.jsx:20-30 | the message starts with the card number and customer and ends with "Total Amount: ₹" and the total |
| WhatsAppShareDialog.JobCardShareDialog.constructor | src/components/dialogs/WhatsAppShareDialog.jsx:7-8 | the number starts empty; the open flag and the card data are the props |
| WhatsAppShareDialog.JobCardShareDialog.Share | src/components/dialogs/WhatsAppShareDialog.jsx:10-44 | refused for an empty number or one of fewer than 10 characters; otherwise the link to the number's digits with the message, and the dialog closes |
| WhatsAppShareDialog.JobCardShareDialog.SetPhoneNumber | src/components/dialogs/WhatsAppShareDialog.jsx:63 | the number becomes the typed text, as typed; the dialog stays as it was |
| JobCardNew.NextTab | src/pages/JobCardNew.jsx:73-76 | customer to vehicle to service, and service stays |
| JobCardNew.PreviousTab | src/pages/JobCardNew.jsx:78-81 | service to vehicle to customer, and customer stays |
| JobCardNew.TabRoundTrips | src/pages/JobCardNew.jsx:73-81 | back undoes forward, forward undoes back, and two steps reach the end tabs |
| JobCardNew.InitialForm | src/pages/JobCardNew.jsx:42-66 | every field, each empty except the service date, which is today |
| JobCardNew.MissingErrors | src/pages/JobCardNew.jsx:104-121 | one "<label> is required" error per empty required field, in the fields' order; MissingErrorsEmpty and Validate are stated about it |
| JobCardNew.MissingErrorsEmpty | src/pages/JobCardNew.jsx:104-126 | no errors exactly when every required field is filled; at most one error per field |
| JobCardNew.Validate | src/pages/JobCardNew.jsx:115-121 | the loop gives one error per empty required field, in order, and the valid flag says all are filled |
| JobCardNew.OtherFieldIrrelevant | src/pages/JobCardNew.jsx:104-126 | a field outside the required table never changes the verdict |
| JobCardNew.CompletionDateOptional | src/pages/JobCardNew.jsx:104-113 | the expected completion date is not required |
| JobCardNew.TotalAfterChanges | src/pages/JobCardNew.jsx:139-153 | the total is 0 when empty, grows by the price of an added service, and drops by the prices of a removed id |
| JobCardNew.Years | src/pages/JobCardNew.jsx:31 | 30 options, option i being the current year minus i |
| JobCardNew.YearsDescending | src/pages/JobCardNew.jsx:31 | read back, the options are the years counting down, all different |
| JobCardNew.JobCardNewPage.constructor | src/pages/JobCardNew.jsx:35-71 | the customer tab, the initial form, and no services or models |
| JobCardNew.JobCardNewPage.HandleNextTab | src/pages/JobCardNew.jsx:73-76 | the tab moves forward and nothing else changes |
| JobCardNew.JobCardNewPage.HandlePreviousTab | src/pages/JobCardNew.jsx:78-81 | the tab moves back and nothing else changes |
| JobCardNew.JobCardNewPage.HandleInputChange | src/pages/JobCardNew.jsx:83-98 | only the field changes; a known make also lists its models and clears the model |
| JobCardNew.JobCardNewPage.HandleSaveJobCard | src/pages/JobCardNew.jsx:100-127 | the errors for the missing fields; submitting starts exactly when there are none |
| JobCardNew.FieldText | src/pages/JobCardNew.jsx:131 | a field of the form reads as its value inside the toast's template; a missing one reads "undefined" |
| JobCardNew.CreatedDescriptionNames | src/pages/JobCardNew.jsx:104-132 | after the required-field check passes, the description names the form's own customer, make and model, all non-empty |
| JobCardNew.JobCardNewPage.FinishSave | src/pages/JobCardNew.jsx:129-136 | the toast 'Job card created successfully' with the description "Job card for <customer>'s <make> <model> has been created"; the card counts as saved and submitting ends |
| JobCardNew.JobCardNewPage.HandlePredefinedServices | src/pages/JobCardNew.jsx:139-141 | the chosen list replaces the selection |
| JobCardNew.JobCardNewPage.HandleCustomService | src/pages/JobCardNew.jsx:143-145 | the service goes at the end |
| JobCardNew.JobCardNewPage.HandleRemoveService | src/pages/JobCardNew.jsx:147-149 | every service with the id is removed, and the rest keep their order |
| Selection.Toggle | src/components/services/PredefinedServicesList.jsx:12-22 | the id's selected state flips and no other id's changes; an absent service is appended, and a present one is removed with every entry of its id while the rest keep their order |
| Selection.ToggleTwice | src/components/services/PredefinedServicesList.jsx:12-22 | toggling an absent service twice restores the selection |
| Selection.ToggleUnique | src/components/services/PredefinedServicesList.jsx:12-22 | toggling never creates a duplicate id |
| Selection.ToggleTotal | src/components/services/PredefinedServicesList.jsx:12-86 | selecting adds the price to the total; deselecting subtracts the prices with that id |
| Selection.InCategory | src/components/services/PredefinedServicesList.jsx:35-41 | the services of the category, appended one by one in catalogue order, are exactly `services.filter(s => s.category === c)` |
| PredefinedServicesList.GroupByCategory | src/components/services/PredefinedServicesList.jsx:35-41 | the loop's categories are the distinct categories in increasing order of first appearance; the groups are keyed by exactly those; each group is the catalogue filtered by its category, so in input order |
| PredefinedServicesList.GroupsPartition | src/components/services/PredefinedServicesList.jsx:35-41 | each service is in exactly the group of its own category |
| PredefinedServicesList.PredefinedServicesDialog.constructor | src/components/services/PredefinedServicesList.jsx:9-10 | nothing selected; the open flag is the prop |
| PredefinedServicesList.PredefinedServicesDialog.HandleServiceToggle | src/components/services/PredefinedServicesList.jsx:12-22 | the selection is toggled |
| PredefinedServicesList.PredefinedServicesDialog.HandleConfirm | src/components/services/PredefinedServicesList.jsx:24-27 | the selection is passed and kept, and the dialog closes |
| PredefinedServicesList.PredefinedServicesDialog.HandleCancel | src/components/services/PredefinedServicesList.jsx:29-32 | the selection is cleared and the dialog closes |
| PredefinedServicesList.PredefinedServicesDialog.Footer | src/components/services/PredefinedServicesList.jsx:81-86 | the count is the selection's length and the total is its summed prices |
| ServiceList.AddSelected | src/components/services/ServiceList.jsx:23-39 | the selection is passed exactly when it is non-empty and there is a callback; an empty selection is refused with the error |
| ServiceList.DisabledMeansNothingPassed | src/components/services/ServiceList.jsx:23-47 | while the button is disabled nothing is passed; a non-empty selection with a callback is passed |
| ServiceList.SelectableServiceList.constructor | src/components/services/ServiceList.jsx:7-8 | nothing selected; whether a callback was given is the prop |
| ServiceList.SelectableServiceList.HandleServiceToggle | src/components/services/ServiceList.jsx:11-21 | the selection is toggled |
| ServiceList.SelectableServiceList.HandleAddSelectedServices | src/components/services/ServiceList.jsx:23-39 | the outcome of AddSelected; the selection is cleared exactly when it was passed |
| ServiceList.SelectableServiceList.AddDisabled | src/components/services/ServiceList.jsx:47 | the button is disabled exactly when nothing is selected, the case AddSelected refuses |
| ServiceList.SelectableServiceList.Checked | src/components/services/ServiceList.jsx:64 | a checkbox is ticked exactly when some selected service has its id |
| ServicesPage.NewServiceId | src/pages/Services.jsx:49-53 | a new service's id starts with "service-" |
| ServicesPage.FilteredServices | src/pages/Services.jsx:124-125 | the 'all-services' tab shows everything; any other tab shows that category's services |
| ServicesPage.Categories | src/pages/Services.jsx:128 | the tabs are 'all-services', then each category once, in increasing order of first use |
| ServicesPage.TabsCoverServices | src/pages/Services.jsx:124-128 | every service's category has a tab, and such a tab is never empty |
| ServicesPage.AddThenDelete | src/pages/Services.jsx:49-104 | deleting a just-added service restores the list |
| ServicesPage.EditUnchanged | src/pages/Services.jsx:70-87 | saving an unedited service leaves a list of unique ids unchanged |
| ServicesPage.DeleteIdempotent | src/pages/Services.jsx:89-104 | deleting the same id twice is deleting it once |
| ServicesPage.ServicesPage.constructor | src/pages/Services.jsx:15-19 | tab 'all-services', no services, form closed, nothing being edited, select mode off, no navigation |
| ServicesPage.ServicesPage.Load | src/pages/Services.jsx:23-47 | the list is the catalogue followed by the stored custom services |
| ServicesPage.ServicesPage.HandleAddService | src/pages/Services.jsx:49-68 | the new service with a fresh id is appended to both the list and the stored one; the form closes; other keys are unchanged |
| ServicesPage.ServicesPage.HandleEditService | src/pages/Services.jsx:70-87 | entries with the id are replaced in the list, and in the stored list only when one exists |
| ServicesPage.ServicesPage.HandleDeleteService | src/pages/Services.jsx:89-104 | entries with the id are removed from both lists |
| ServicesPage.ServicesPage.SubmitForm | src/pages/Services.jsx:49-87 | with a service being edited: the list and the stored custom services (when there are any) get the edit in place, editing ends, the form's flag stays, toast "Service updated successfully"; otherwise: the service with its new id is appended to the list and to the stored custom services, the form closes, toast "Service added successfully"; the tab, select mode, navigation and other stored keys never change |
| ServicesPage.ServicesPage.OpenNewServiceForm | src/pages/Services.jsx:147-150 | nothing is being edited and the form opens |
| ServicesPage.ServicesPage.ToggleSelectMode | src/pages/Services.jsx:140 | select mode flips and nothing else changes |
| ServicesPage.ServicesPage.SetActiveTab | src/pages/Services.jsx:158 | the active tab becomes the chosen one; the list, the modes, the form and the route are unchanged |
| ServicesPage.ServicesPage.StartEditService | src/pages/Services.jsx:106-109 | the service becomes the one being edited and the form opens |
| ServicesPage.ServicesPage.HandleSelectServices | src/pages/Services.jsx:111-122 | the selection is stored, the toast counts it, and the page goes to the new job card |
| ServicesPage.ServicesPage.Shown | src/pages/Services.jsx:124-125 | the shown services are those of the active tab |
| ServiceForm.ResetFields | src/components/services/ServiceForm.jsx:61-67 | the text fields are cleared and the category is 'Maintenance', so the form does not submit |
| ServiceForm.RecordId | src/components/services/ServiceForm.jsx:47-54 | the initial id when editing one that has an id, otherwise "temp-" and the time |
| ServiceForm.EditRoundTrip | src/components/services/ServiceForm.jsx:28-59 | a service put into the form and submitted unedited comes back unchanged |
| ServiceForm.ServiceFormDialog.constructor | src/components/services/ServiceForm.jsx:9-14 | all five fields empty, the category included, until the open effect runs; the open flag and the initial data are the props |
| ServiceForm.ServiceFormDialog.SetProps | src/components/services/ServiceForm.jsx:28-40 | one run of the effect (on mount or when `open` or `initialData` changed): opening with initial data fills all five fields, opening without resets them, and a closed dialog keeps them |
| ServiceForm.ServiceFormDialog.HandleSubmit | src/components/services/ServiceForm.jsx:42-59 | nothing happens unless all five fields are filled; otherwise the built record is passed |
| ServiceForm.ServiceFormDialog.HandleCancel | src/components/services/ServiceForm.jsx:69-72 | the form resets and closes |
| ServiceForm.ServiceFormDialog.ResetForm | src/components/services/ServiceForm.jsx:61-67 | the fields become the reset values (empty text, 'Maintenance'); the open flag and the initial data are unchanged |
| ServiceForm.ServiceFormDialog.SetField | src/components/services/ServiceForm.jsx:87-128 | the five fields become the edited values; the open flag and the initial data are unchanged |
| ServiceForm.ServiceFormDialog.SubmitDisabled | src/components/services/ServiceForm.jsx:149 | the button is disabled exactly when one of the five fields is empty, the case in which HandleSubmit does nothing |
| CustomServiceDialog.Build | src/components/services/CustomServiceDialog.jsx:19-26 | the record has a "custom-" id, the category 'Custom Service', the entered fields, and Number() of the price |
| CustomServiceDialog.BuildIdsDistinct | src/components/services/CustomServiceDialog.jsx:19-26 | records built at different times have different ids |
| CustomServiceDialog.CustomServiceForm.constructor | src/components/services/CustomServiceDialog.jsx:8-12 | the four fields empty; the open flag is the prop |
| CustomServiceDialog.CustomServiceForm.HandleSubmit | src/components/services/CustomServiceDialog.jsx:14-31 | nothing happens unless all four fields are filled; otherwise the record is passed and the fields are cleared |
| CustomServiceDialog.CustomServiceForm.HandleCancel | src/components/services/CustomServiceDialog.jsx:40-43 | the fields are cleared and the dialog closes |
| CustomServiceDialog.CustomServiceForm.ResetForm | src/components/services/CustomServiceDialog.jsx:33-38 | the four fields are cleared; the open flag is unchanged |
| CustomServiceDialog.CustomServiceForm.SetField | src/components/services/CustomServiceDialog.jsx:58-91 | the four fields become the edited values; the open flag is unchanged |
| CustomServiceDialog.CustomServiceForm.SubmitDisabled | src/components/services/CustomServiceDialog.jsx:104 | the button is disabled exactly when one of the four fields is empty, the case in which HandleSubmit does nothing |
| Records.Pad4 | src/components/customer/CustomerForm.jsx:48-50 | a number below 10000 becomes four digits that read back as the number |
| Records.NewId | src/components/customer/CustomerForm.jsx:48-50 | a new id is the prefix followed by the four-digit number |
| Records.Upserted | src/components/customer/CustomerForm.jsx:57-68 | in edit mode the records with the id are replaced and the length and all others are kept; in add mode exactly one record is appended |
| Records.UpsertedFinds | src/components/customer/CustomerForm.jsx:57-68 | after an add with a fresh id, or an edit, looking the record up by id finds it |
| Records.UpsertedTwice | src/components/customer/CustomerForm.jsx:57-63 | saving the same edit twice is saving it once |
| CustomerForm.SchemaAsWritten | src/components/customer/CustomerForm.jsx:15-22 | the zod schema as written: a name of at least 2 and a mobile of at least 6 characters, and an email that is absent or passes the email check; BlankEmailBlocksSave and HandleSubmit use it |
| CustomerForm.SchemaAccepts | src/components/customer/CustomerForm.jsx:15-22 | the schema with a blank email read as no email, the corrected half of the Findings row; SchemaAcceptsBlankEmail relates it to the written one |
| CustomerForm.ToCustomer | src/components/customer/CustomerForm.jsx:45-52 | `{ id, ...data }`: the form's fields under the id; EditUnchanged and Save are stated with it |
| CustomerForm.DefaultValues | src/components/customer/CustomerForm.jsx:29-40 | a new form is blank with an empty email; an edit form starts from the customer's data; CustomerForm.EditUnchanged states that every field is carried |
| CustomerForm.BlankEmailBlocksSave | src/components/customer/CustomerForm.jsx:16-34 | the schema as written refuses the blank email the new form starts with |
| CustomerForm.SchemaAcceptsBlankEmail | src/components/customer/CustomerForm.jsx:16-18 | the corrected schema accepts a blank email and otherwise agrees with the written one: name of at least 2 and mobile of at least 6 characters |
| CustomerForm.SavedId | src/components/customer/CustomerForm.jsx:26-52 | edit mode exactly when an id is given, and it keeps that id; otherwise "CUST-" and four digits |
| CustomerForm.Save | src/components/customer/CustomerForm.jsx:42-82 | the stored customers become the add-or-replace of the saved record; the toast fits the mode; the page goes to /customers; the other keys are unchanged |
| CustomerForm.HandleSubmit | src/components/customer/CustomerForm.jsx:15-82 | the schema as written decides: values it refuses, a blank email among them, save nothing and leave the store as it was; accepted values are saved by add-or-replace |
| CustomerForm.HandleSubmitCorrected | src/components/customer/CustomerForm.jsx:15-82 | the same submit under the corrected schema: a blank email no longer blocks the save; refused values still save nothing |
| CustomerForm.EditUnchanged | src/components/customer/CustomerForm.jsx:29-63 | an edit form submitted unedited saves the customer unchanged |
| VehicleForm.SchemaAccepts | src/components/vehicle/VehicleForm.jsx:17-28 | customer, make, model and registration non-empty, and a year of exactly four digits; DefaultYearPasses and BlankFormFailsSchema are stated about it |
| VehicleForm.ToVehicle | src/components/vehicle/VehicleForm.jsx:62-69 | `{ id, ...data }`: the form's fields under the id; EditUnchanged and Save are stated with it |
| VehicleForm.DefaultValues | src/components/vehicle/VehicleForm.jsx:44-56 | the initial data overrides the defaults; the year defaults to the current year and the customer to the preselected one; VehicleForm.EditUnchanged states that every field of a vehicle being edited is carried |
| VehicleForm.DefaultYearPasses | src/components/vehicle/VehicleForm.jsx:17-56 | the default year is four digits |
| VehicleForm.BlankFormFailsSchema | src/components/vehicle/VehicleForm.jsx:17-43 | the declared schema would refuse the blank form, which is saved all the same because the resolver is off |
| VehicleForm.SavedId | src/components/vehicle/VehicleForm.jsx:32-67 | edit mode keeps the id; otherwise "VEH-" and four digits |
| VehicleForm.NextRoute | src/components/vehicle/VehicleForm.jsx:92-96 | the customer's page exactly when a customer was preselected, otherwise /vehicles |
| VehicleForm.Save | src/components/vehicle/VehicleForm.jsx:59-101 | the stored vehicles become the add-or-replace of the saved record; the navigation target; the other keys are unchanged |
| VehicleForm.EditUnchanged | src/components/vehicle/VehicleForm.jsx:44-84 | an edit form submitted unedited saves the vehicle unchanged |
| InventoryForm.NonNegative | src/components/inventory/InventoryForm.jsx:20-25 | one numeric rule: `parseInt` gives a number, not NaN, and it is at least 0; SchemaRefuses and DefaultsPass are stated about it |
| InventoryForm.SchemaAccepts | src/components/inventory/InventoryForm.jsx:16-46 | a part name and all four numeric fields passing their rule |
| InventoryForm.ToItem | src/components/inventory/InventoryForm.jsx:85-101 | the record: the parsed numbers and the text fields under the id; Save and EditUnchanged are stated with it |
| InventoryForm.DefaultValues | src/components/inventory/InventoryForm.jsx:69-79 | a new form has stock '0' and threshold '5'; an edit form starts from the item's name and its numbers as text; InventoryForm.EditUnchanged states that every field is carried |
| InventoryForm.DefaultsPass | src/components/inventory/InventoryForm.jsx:16-74 | the defaults with a part name pass the schema |
| InventoryForm.SchemaRefuses | src/components/inventory/InventoryForm.jsx:20-31 | a negative or non-numeric quantity fails the schema |
| InventoryForm.SavedId | src/components/inventory/InventoryForm.jsx:50-99 | edit mode keeps the id; otherwise "INV-" and four digits |
| InventoryForm.Reparse | src/components/inventory/InventoryForm.jsx:85-91 | parsing a number's text again gives the number |
| InventoryForm.Save | src/components/inventory/InventoryForm.jsx:82-129 | the stored items become the add-or-replace of the saved item; the page goes to /inventory; the other keys are unchanged |
| InventoryForm.EditUnchanged | src/components/inventory/InventoryForm.jsx:69-116 | a valid item submitted unedited passes the schema and is saved unchanged |
| InventoryList.FilterPipeline | src/pages/InventoryList.jsx:41-64 | the stage-by-stage filtering is the one filter keeping, in order, exactly the items passing every active filter |
| InventoryList.FilterLimits | src/pages/InventoryList.jsx:44-61 | no active filter keeps everything; only the low-stock filter keeps exactly the low-stock items |
| InventoryList.Categories | src/pages/InventoryList.jsx:38 | each item's category, 'Uncategorized' for none, once each, in increasing order of first use |
| InventoryList.CategoryOffered | src/pages/InventoryList.jsx:38-57 | an item's category is offered, and choosing it selects the item |
| InventoryList.EmptyText | src/pages/InventoryList.jsx:257-259 | 'No inventory items match your filters' exactly when some filter is active |
| InventoryList.NoItemsTextIsTrue | src/pages/InventoryList.jsx:257-259 | with no filter active, an empty table means no items at all |
| InventoryList.InventoryListPage.constructor | src/pages/InventoryList.jsx:22-26 | empty query, no items shown or loaded, no category filter ('' for null), low-stock off |
| InventoryList.InventoryListPage.Load | src/pages/InventoryList.jsx:29-35 | the stored items, when present, are loaded and filtered |
| InventoryList.InventoryListPage.Refilter | src/pages/InventoryList.jsx:41-64 | the filter effect: the shown items become the items that pass every active filter, in order; the items and the filters are unchanged |
| InventoryList.InventoryListPage.SetSearchQuery | src/pages/InventoryList.jsx:101 | the query becomes the typed text and the shown items are filtered again; the items and the other filters are unchanged |
| InventoryList.InventoryListPage.SetCategoryFilter | src/pages/InventoryList.jsx:110 | the category filter becomes the chosen value ('' for none) and the shown items are filtered again; the rest is unchanged |
| InventoryList.InventoryListPage.ToggleShowLowStock | src/pages/InventoryList.jsx:125 | the low-stock flag flips and the shown items are filtered again; the rest is unchanged |
| InventoryList.InventoryListPage.HandleDeleteItem | src/pages/InventoryList.jsx:70-86 | every item with the id is removed from the list, and the store receives the same list |
| InventoryList.InventoryListPage.TableEmptyText | src/pages/InventoryList.jsx:257-259 | the empty text from the page's filters |
| LowStockAlert.LowStockItems | src/components/inventory/LowStockAlert.jsx:6 | the `filter` of the items by the threshold test: exactly the items whose stock is at or below the threshold, in input order |
| LowStockAlert.AlertText | src/components/inventory/LowStockAlert.jsx:43-44 | the count, "item" or "items", "is" or "are", then the fixed words; AlertTextForms states both forms |
| LowStockAlert.AlertTextForms | src/components/inventory/LowStockAlert.jsx:43-44 | "1 item is" for one item, "N items are" otherwise |
| LowStockAlert.Render | src/components/inventory/LowStockAlert.jsx:8-44 | "All items are in stock" exactly when no item is low; otherwise the low items and the alert |
| LowStockAlert.OutOfStockIsListed | src/components/inventory/LowStockAlert.jsx:6-55 | an out-of-stock item with a non-negative threshold is listed as low |
| LowStockAlert.HandleReorder | src/components/inventory/LowStockAlert.jsx:24-30 | calls the handler exactly when one is supplied, otherwise toasts |
| JobCardList.FilteredJobCards | src/pages/JobCardList.jsx:103-114 | the `filter` of the cards by both tests: exactly the cards passing the search and the status filter, in input order |
| JobCardList.NoFilterListsAll | src/pages/JobCardList.jsx:105-111 | an empty query and no status list every card, in order |
| JobCardList.QueryCaseIgnored | src/pages/JobCardList.jsx:106-109 | the query's case does not change the result |
| JobCardList.CardFindsItself | src/pages/JobCardList.jsx:106-109 | a card is found by its id under its status, and by its "make model" text |
| JobCardList.StatusFilterExact | src/pages/JobCardList.jsx:111 | a status filter admits only cards of that status |
| JobCardList.EmptyMessage | src/pages/JobCardList.jsx:220-224 | "No job cards found." exactly when nothing is listed |
| CustomerList.FilteredCustomers | src/pages/CustomerList.jsx:79-85 | the `filter` of the customers: exactly those matching the query by name, mobile or email, in input order |
| CustomerList.EmptyQueryListsAll | src/pages/CustomerList.jsx:79-81 | an empty query lists every customer, in order |
| CustomerList.NoEmailMatch | src/pages/CustomerList.jsx:84 | a customer without an email matches only by name or mobile |
| CustomerList.MobileCaseSensitive | src/pages/CustomerList.jsx:82-84 | the mobile is searched as typed |
| CustomerList.EmptyText | src/pages/CustomerList.jsx:153-158 | with a query, exactly `No results for "<query>"`, which starts with the fixed words and includes the query; without one, 'No customers have been added yet' |
| VehicleList.OwnerName | src/pages/VehicleList.jsx:13-19 | the first customer's name with the vehicle's customer id, or 'Unknown Customer' |
| VehicleList.EnhancedVehicles | src/pages/VehicleList.jsx:13-19 | the same vehicles in the same order, each with its owner's name |
| VehicleList.FilteredVehicles | src/pages/VehicleList.jsx:21-27 | the `filter` of the enhanced vehicles: exactly those matching on make, model, registration or owner, in input order |
| VehicleList.EmptyQueryListsAll | src/pages/VehicleList.jsx:21-27 | an empty query lists every vehicle |
| VehicleList.OwnerFindsVehicle | src/pages/VehicleList.jsx:21-27 | a vehicle is found by its owner's name |
| VehicleList.GridShown | src/pages/VehicleList.jsx:55-105 | 'No vehicles found' exactly when nothing is listed |
| VehicleList.NoneFoundWithoutQuery | src/pages/VehicleList.jsx:21-55 | without a query the empty state means there are no vehicles |
| MechanicList.FilteredMechanics | src/pages/MechanicList.jsx:13-15 | the `filter` of the mechanics: exactly those whose name contains the query, ignoring case, in input order |
| MechanicList.EmptyQueryListsAll | src/pages/MechanicList.jsx:13-15 | an empty query lists everyone, in order |
| MechanicList.ActiveBadge | src/pages/MechanicList.jsx:59-67 | the active-job count with "job" or "jobs" when positive, 'Available' otherwise; ActiveBadgeForms states each form |
| MechanicList.ActiveBadgeForms | src/pages/MechanicList.jsx:59-67 | "1 active job", "N active jobs" for N > 1, 'Available' for N <= 0 |
| MechanicList.ExpertiseShown | src/pages/MechanicList.jsx:75-81 | the 'No expertise listed' fallback exactly when expertise is absent; an empty list shows no tags |
| MechanicList.GridShown | src/pages/MechanicList.jsx:45-99 | "No mechanics found" exactly when nothing is listed |
| MechanicList.NoneFoundWithoutQuery | src/pages/MechanicList.jsx:13-45 | without a query the empty state means there are no mechanics |
| CustomerDetails.CustomerVehicles | src/pages/CustomerDetails.jsx:20-21 | the `filter` of the vehicles: exactly those whose customer id is the id, in input order |
| CustomerDetails.JobCardCount | src/pages/CustomerDetails.jsx:24-25 | the number of the customer's job cards, at most all of them |
| CustomerDetails.JobCardCountZero | src/pages/CustomerDetails.jsx:24-25 | the count is 0 exactly when no card is the customer's |
| CustomerDetails.JobCardCountAppend | src/pages/CustomerDetails.jsx:24-25 | one more card raises the count by one exactly when it is the customer's |
| CustomerDetails.Render | src/pages/CustomerDetails.jsx:29-222 | "Customer not found" exactly without a customer; "No vehicles yet" exactly without vehicles; the history placeholder exactly for a count above 0 |
| CustomerDetails.CustomerDetailsPage.constructor | src/pages/CustomerDetails.jsx:10-12 | no customer, no vehicles and a job-card count of 0 |
| CustomerDetails.CustomerDetailsPage.Load | src/pages/CustomerDetails.jsx:14-27 | a found customer sets the customer, its vehicles and its count; otherwise nothing changes |
| CustomerDetails.OpenPage | src/pages/CustomerDetails.jsx:14-46 | "Customer not found" exactly when no customer has the id; otherwise that customer, with exactly its vehicles |
| VehicleDetails.RelatedJobCards | src/pages/VehicleDetails.jsx:47-51 | the `filter` of the job cards: exactly the vehicle's cards, in input order |
| VehicleDetails.LastService | src/pages/VehicleDetails.jsx:151-153 | the first related card's date, or 'No service history' |
| VehicleDetails.LastServiceIsFirstCard | src/pages/VehicleDetails.jsx:47-153 | the last service shown is the date of the vehicle's first card in stored order |
| VehicleDetails.VehicleDetailsPage.constructor | src/pages/VehicleDetails.jsx:12-13 | no vehicle and the owner name 'Unknown Customer' |
| VehicleDetails.VehicleDetailsPage.Load | src/pages/VehicleDetails.jsx:13-25 | a found vehicle sets the vehicle and its owner's name, or 'Unknown Customer'; otherwise nothing changes |
| VehicleDetails.VehicleDetailsPage.View | src/pages/VehicleDetails.jsx:27-53 | "Vehicle not found" exactly without a vehicle; otherwise its related cards and last service |
| VehicleDetails.OpenPage | src/pages/VehicleDetails.jsx:15-53 | "Vehicle not found" exactly when no vehicle has the id; otherwise that vehicle with only its job cards |
| ReportGenerator.ShareGuard | src/components/reports/ReportGenerator.jsx:64-76 | the missing phone is checked first, then the missing report; sharing passes exactly when both are present |
| ReportGenerator.Heading | src/components/reports/ReportGenerator.jsx:124-125 | the type capitalised, " Report - ", the period capitalised; HeadingShape and DefaultHeading are stated about it |
| ReportGenerator.HeadingShape | src/components/reports/ReportGenerator.jsx:124-125 | the heading is the type with its first letter upper-cased, " Report - ", then the period likewise |
| ReportGenerator.DefaultHeading | src/components/reports/ReportGenerator.jsx:11-125 | the initial heading is "Daily Report - Today" |
| ReportGenerator.RenderCard | src/components/reports/ReportGenerator.jsx:118-180 | no card without a report; otherwise the counts, with 'No pending jobs' and 'No jobs completed today' exactly for empty lists |
| ReportGenerator.ReportGeneratorPanel.constructor | src/components/reports/ReportGenerator.jsx:10-14 | daily, today, no report, dialog closed |
| ReportGenerator.ReportGeneratorPanel.SetReportType | src/components/reports/ReportGenerator.jsx:83 | the type becomes the chosen one; the period, the stored report and the dialog flag are unchanged |
| ReportGenerator.ReportGeneratorPanel.SetReportPeriod | src/components/reports/ReportGenerator.jsx:98 | the period becomes the chosen one; the type, the stored report and the dialog flag are unchanged |
| ReportGenerator.ReportGeneratorPanel.Generate | src/components/reports/ReportGenerator.jsx:50-62 | the stored report carries the selected type and period, the data and the time |
| ReportGenerator.ReportGeneratorPanel.ShareReport | src/components/reports/ReportGenerator.jsx:64-76 | the guard's error and no dialog, or the dialog opens |
| ReportGenerator.SharedMessageIsReport | src/components/reports/ReportGenerator.jsx:191-197 | the dialog opened with a report carries that report's message |
| ReportGenerator.GenerateThenShare | src/components/reports/ReportGenerator.jsx:50-76 | a fresh panel refuses to share; after generating, the dialog opens exactly when the phone is set |
| MobileBottomNav.IsActive | src/components/layout/MobileBottomNav.jsx:22 | an item is active on its own path, and any item but Home on any path that starts with its own; the lemmas below state the consequences |
| MobileBottomNav.HomeOnlyExact | src/components/layout/MobileBottomNav.jsx:22 | Home is active only on "/" itself |
| MobileBottomNav.OtherItemsByPrefix | src/components/layout/MobileBottomNav.jsx:22 | any other item is active exactly when its path is a prefix of the current path |
| MobileBottomNav.PrefixNotSegment | src/components/layout/MobileBottomNav.jsx:22 | the test is on characters, not path segments |
| MobileBottomNav.OwnPathActive | src/components/layout/MobileBottomNav.jsx:11-22 | an item is active on its own path, and every item but Home under it |
| MobileBottomNav.RootHighlightsHomeOnly | src/components/layout/MobileBottomNav.jsx:11-22 | on "/" only Home is active |
| MobileBottomNav.FixedItems | src/components/layout/MobileBottomNav.jsx:10-16 | exactly five items in fixed order, with distinct paths |
| Text.JsParseInt | src/components/inventory/InventoryForm.jsx:22 | `parseInt(s, 10)`: leading JavaScript white space and one sign are skipped and the longest run of digits is read; no digits gives NaN, here None |
| Text.JsParseIntPrefix | src/components/inventory/InventoryForm.jsx:20-91 | `parseInt` of a number's text, whatever non-digit text follows, gives the number |
| Text.JsParseIntString | src/components/inventory/InventoryForm.jsx:20-91 | `parseInt` of a number's own text gives back the number |
| Text.JsParseIntSkipsControlSpaces | src/components/inventory/InventoryForm.jsx:22 | form feed, vertical tab and the no-break space before a sign are skipped: "\f\v\u00A0-5" reads as -5 |
| Collections.RemoveKey | src/pages/InventoryList.jsx:70-79 | the result is exactly the filter of the elements whose key differs, so every element with the key goes and the rest keep their order and their repeats |
| Collections.ReplaceWhere | src/pages/Services.jsx:70-81 | every element with the key is replaced; the length and the others are kept |
| Collections.FilterIsSubsequence | src/components/inventory/LowStockAlert.jsx:6 | `s.filter(p)` is s read at the increasing indices where p holds, one element per index, so the input's order and repeats are kept |
| Collections.FilterAtIndices | src/pages/InventoryList.jsx:44-61 | the same for the filter of any suffix of s, the induction the whole-list statement rests on |
| Collections.DistinctOrder | src/pages/Services.jsx:128 | `Array.from(new Set(s))` lists its values in increasing order of their first occurrence in s |

## Left out

- Rendering, styling, icons, routing libraries, toasts as side effects (returned as values instead; the share methods' fixed success toasts, 'Opening WhatsApp with job card details' and 'Opening WhatsApp with job details', are the `Ok` outcome), timers, and `localStorage` serialisation and `JSON.parse` failures.
- Clock and randomness are parameters. Id uniqueness is not claimed: random four-digit ids can collide.
- `formatCurrency`, `encodeURIComponent`, `toLocaleString`, date-fns `format` and `formatDate` are uninterpreted parameters; `toFixed(2)` and `parseFloat` prices are not modelled, and amounts are whole rupees.
- `Number()` on the service price fields is a parameter; its NaN result for bad text is not modelled.
- `parseInt` is modelled for the white space and line terminators ECMAScript skips, an optional sign and decimal digits; it does not model hex prefixes or NaN as a number (it gives None).
- Text.JsParseIntPrefix: the value read is exact, where JavaScript rounds a run of digits above 2^53 to the nearest double ("9007199254740993" gives 9007199254740992), and a run long enough to overflow gives Infinity; the round trip holds in the source only for magnitudes up to 2^53 - 1.
- Text.JsParseIntString: holds in the source only for magnitudes up to 2^53 - 1: above that the number itself is a rounded double, and from 10^21 on `String` writes exponent notation ("1e+21"), which `parseInt` reads back as 1. Text.IntToString models the plain notation only.
- InventoryForm.Reparse: numbers are unbounded integers here; in the source `parseInt(n.toString())` gives back n only for magnitudes up to 2^53 - 1, and gives 1 for 10^21.
- InventoryForm.Save: the stored numbers are the exact values read; in the source a quantity of 22 digits such as "1000000000000000000000" is stored as 1e21 and reads back in the edit form as "1e+21", and digit strings above 2^53 lose precision.
- InventoryForm.EditUnchanged: holds in the source only for numbers up to 2^53 - 1; an item with a quantity of 10^21 is shown as "1e+21" and saved back as 1.
- Case-insensitive search lower-cases ASCII letters only.
- Text.Capitalize: upper-cases an ASCII first letter only (through Text.UpperChar), where JavaScript's `toUpperCase` maps other letters too and can change the length ("ß" becomes "SS"); Utils.StatusLabel, Utils.PaymentStatusLabel and ReportGenerator.Heading inherit this.
- WhatsAppShare.PhoneAccepted: a string's length is its number of characters, where JavaScript's `.length` counts UTF-16 code units, so a character outside the Basic Multilingual Plane counts once here and twice in the source. The same holds for the share guards of WhatsAppShareDialog and JobCardDetails and for the schema's `.min(2)` and `.min(6)` in CustomerForm.SchemaAsWritten.
- PredefinedServicesList.GroupByCategory: the groups are listed in insertion order; `Object.entries` would list integer-like category names (such as "10") first, in numeric order, and a category named like an `Object.prototype` member (such as "constructor") would misbehave. Neither case is modelled.
- The react-hook-form and zod machinery is not modelled; only the predicates the schemas state are. Form values are the submitted data; a field that initial data carries beyond the form's own fields (such as an id) is not modelled.
- The `onSave` callbacks the forms may receive, and the `catch` branches around storage, are not modelled.
- The mock data the pages read (job cards, customers, vehicles, mechanics, the service catalogue and the report's sample data) is a parameter; its contents are not part of this model.
- InventoryList.CategoryOffered: for an item whose category is literally 'Uncategorized' the source shows only uncategorised items under that choice; the lemma demands a category other than that name.
- DailyReport: the schedule handler (a toast only) and the selectable report time and period without effect on the text are not modelled.
- JobCardDetails: bill generation, signature requests and downloads are I/O. The page's own share dialog flag is never set by any handler in the source, so ConfirmShare is reachable only in the model.
- VehicleForm: the schema is modelled as a predicate but not applied to a save, because the source's resolver is commented out.
- ReportGenerator: the heading uses the current selection, not the type and period stored in the report; the model follows that.

## Findings

| source | as written | input that shows it | evidently intended | confidence | as-written member | corrected member |
|---|---|---|---|---|---|---|
| src/components/customer/CustomerForm.jsx:16-34 | the email field is `z.string().email({ message: 'Invalid email address' }).optional().nullable()` while a new form's default email is '' | a new customer with a valid name and mobile and the email left blank: '' is neither undefined nor null and is not an email, so the schema refuses it and nothing is saved | an empty email means "no email", so a blank email is accepted | not executed | CustomerForm.BlankEmailBlocksSave | CustomerForm.SchemaAcceptsBlankEmail |
