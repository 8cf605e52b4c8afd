# Tambua dashboard: a verified model of its page and form logic

Tambua RDC is a browser dashboard for traffic administration in the DRC. Supervisors
browse and edit fines, vehicles, motorcycles, agents and the infraction catalogue, and
generate reports. Field agents register licence applications and vehicles, and print
licences, pink cards and motorcycle attestations. All data is held in in-memory tables.
This project models the logic behind those screens in Dafny:

- **Record tables.** The five list pages are classes whose `seq` field is the page's
  state. Each has save-by-id and confirmed delete-by-id. The fines, vehicles,
  motorcycles and agents pages also have a case-insensitive search box, and the fines
  page a status filter. Agents and infractions are added at the front. The agent avatar
  rule is modelled too.
- **Detail pages.** A record is looked up by the route's `:id`. The page then lists the
  fines with the record's exact plate, or the agent's activities with an empty default.
- **Reports.** The report is filtered by zone. The model covers the paid and pending
  sums, the group-by counts in first-appearance order, and the Monday-first week of the
  month with its five weekly buckets. The `forEach`/`reduce` loops are methods proved
  against specification functions.
- **Forms.**
  - Single-field updates of the edit and add modals, with `parseInt(value, 10) || 0`
    for amounts.
  - The submit timers, modelled as a start step and a completion step.
  - Licence-category checkboxes.
  - The rule that a licence application needs a category.
  - The browser's own checks before a submit: a `required` input must not be empty, and a
    `type="email"` input must hold a valid address. Such a form's `onSubmit` handler
    runs only when the checks pass, and the e-mail value is sanitised as it is typed.
- **Print search.** The three print modals share one state machine. It trims and
  upper-cases the key, looks it up in a fixed table, and ends in a found record or an
  error.
- **Access.** The hard-coded credential check, the role-based route table, and the
  role-based side menu. Lemmas show that the three agree.

Shared modules:

- `Text`: JavaScript whitespace, `trim`, ASCII case mapping and `includes`.
- `JsNumber`: `parseInt` and decimal rendering.
- `Lists`: `filter`, and `map`/`filter` by id.
- `Records`: the entities of `types.ts`.
- `InfractionFields`: the form shared by the add and edit infraction modals.
- `FormValidation`: the browser's value sanitisation and the "valid e-mail address"
  grammar of section 4.10.5.1.5 of the HTML Living Standard.

The browser supplies several inputs that the model takes as parameters:

- `window.confirm` is a `confirmed` flag.
- `Date.now()` and `new Date().toISOString()` are `nowMs`, `createdAt`, `updatedAt` and `now`.
- The local calendar day of a date string is a `localDay` function.

## Model

| member | source | states |
|---|---|---|
| Text.TrimIgnoresPadding | components/Agent/PrintLicenseModal.tsx:40 | `trim` drops any JavaScript whitespace on both sides and nothing else |
| Text.TrimEmptyIffBlank | components/Agent/PrintLicenseModal.tsx:33 | the trimmed input is empty exactly when the input is all whitespace |
| Text.SearchIgnoresCase | pages/FinesPage.tsx:33-34 | the lower-cased `includes` test gives the same answer whatever the case of the term or of the text |
| Text.EmptyTermMatches | pages/FinesPage.tsx:33 | every text contains the empty term |
| JsNumber.AmountOfDecimal | components/Admin/EditFineModal.tsx:19 | after optional leading whitespace, a run of digits ended by a non-digit stores that number |
| JsNumber.AmountOfNegative | components/Admin/EditFineModal.tsx:19 | a minus sign before the digits stores the negated number |
| JsNumber.AmountOfNonNumeric | components/Admin/EditFineModal.tsx:19 | input with no leading digit after the sign stores 0 |
| JsNumber.AmountOfIntString | components/Admin/EditFineModal.tsx:19 | parsing back the decimal text of any integer amount gives that amount |
| JsNumber.DecimalValue | pages/AgentsPage.tsx:36 | the decimal text of a clock reading denotes that reading |
| Lists.ReplaceById | pages/FinesPage.tsx:39 | the length is kept; entries with the new record's id become it, and every other entry is unchanged at its index |
| Lists.ReplaceAbsentId | pages/FinesPage.tsx:39 | saving a record whose id is absent leaves the list unchanged |
| Lists.RemoveById | pages/FinesPage.tsx:45 | what remains never carries the id, and every entry with another id remains |
| Lists.RemoveByIdLength | pages/FinesPage.tsx:45 | the list shrinks by exactly the number of entries carrying the id |
| Lists.RemoveAbsentId | pages/FinesPage.tsx:45 | deleting an absent id changes nothing |
| Lists.FindById | pages/VehicleDetailPage.tsx:66 | `find` returns the first entry with the id; it returns none exactly when no entry has it |
| Lists.FindAfterReplace | pages/FinesPage.tsx:39 | after a save the record is found under its id |
| Lists.FindAfterRemove | pages/FinesPage.tsx:45 | after a delete nothing is found under the id |
| Lists.FilterConcat | pages/FinesPage.tsx:31-36 | filtering keeps the list's order: filtering two halves and joining them is filtering the whole |
| Lists.SumSplits | pages/ReportsPage.tsx:140-141 | summing the rows that pass a test and the rows that fail it gives the sum of all rows |
| FinesPage.FilteredFines | pages/FinesPage.tsx:31-36 | a fine is listed iff its plate or driver contains the term (ignoring case) and the filter is "all" or equals its status; only fines of the table are listed |
| FinesPage.UnfilteredShowsAll | pages/FinesPage.tsx:31-36 | an empty term with filter "all" lists every fine in order |
| FinesPage.FilteredFinesKeepsOrder | pages/FinesPage.tsx:31-36 | the filtered list keeps the table's order |
| FinesPage.SearchIgnoresTermCase | pages/FinesPage.tsx:33-34 | an upper-cased term lists the same fines |
| FinesPage.FinesPage.constructor | pages/FinesPage.tsx:26-29 | the page starts on the mock fines with an empty term, filter "all" and no fine under edit |
| FinesPage.FinesPage.OpenEditor | pages/FinesPage.tsx:143 | the row's edit action puts that fine under edit and leaves the table alone |
| FinesPage.FinesPage.SetSearchTerm | pages/FinesPage.tsx:94 | typing sets only the search term; a fine is then on screen iff `Shown` holds for the new term and the current status filter |
| FinesPage.FinesPage.SetStatusFilter | pages/FinesPage.tsx:104 | the select sets only the status filter; a fine is then on screen iff `Shown` holds for the current term and the new status |
| FinesPage.FinesPage.HandleSave | pages/FinesPage.tsx:38-41 | the table becomes the by-id replacement of the old one and the editor closes |
| FinesPage.FinesPage.CloseEditor | pages/FinesPage.tsx:152 | closing the modal clears the fine under edit only |
| FinesPage.FinesPage.HandleDelete | pages/FinesPage.tsx:43-47 | a confirmed delete removes every fine with the id; a declined one changes nothing |
| VehiclesPage.FilteredVehicles | pages/VehiclesPage.tsx:38-43 | a vehicle is listed iff its plate, owner or make and model contains the term, ignoring case |
| VehiclesPage.EmptySearchShowsAll | pages/VehiclesPage.tsx:38-43 | an empty term lists every vehicle in order |
| VehiclesPage.SearchIgnoresTermCase | pages/VehiclesPage.tsx:40-42 | an upper-cased term lists the same vehicles |
| VehiclesPage.VehiclesPage.constructor | pages/VehiclesPage.tsx:34-36 | the page starts on the mock vehicles with an empty term and nothing under edit |
| VehiclesPage.VehiclesPage.OpenEditor | pages/VehiclesPage.tsx:141 | the row's edit action puts that vehicle under edit |
| VehiclesPage.VehiclesPage.SetSearchTerm | pages/VehiclesPage.tsx:101 | typing sets only the search term; a vehicle is then on screen iff `Shown` holds for the new term |
| VehiclesPage.VehiclesPage.HandleSave | pages/VehiclesPage.tsx:45-48 | the table becomes the by-id replacement of the old one and the editor closes |
| VehiclesPage.VehiclesPage.CloseEditor | pages/VehiclesPage.tsx:150 | closing the modal clears the vehicle under edit only |
| VehiclesPage.VehiclesPage.HandleDelete | pages/VehiclesPage.tsx:50-54 | a confirmed delete removes exactly the vehicles with the id; a declined one changes nothing |
| MotorcyclesPage.FilteredMotorcycles | pages/MotorcyclesPage.tsx:35-40 | a motorcycle is listed iff its plate, owner or make and model contains the term, ignoring case |
| MotorcyclesPage.EmptySearchShowsAll | pages/MotorcyclesPage.tsx:35-40 | an empty term lists every motorcycle in order |
| MotorcyclesPage.SearchIgnoresTermCase | pages/MotorcyclesPage.tsx:37-39 | an upper-cased term lists the same motorcycles |
| MotorcyclesPage.MotorcyclesPage.constructor | pages/MotorcyclesPage.tsx:31-33 | the page starts on the mock motorcycles with an empty term and nothing under edit |
| MotorcyclesPage.MotorcyclesPage.OpenEditor | pages/MotorcyclesPage.tsx:138 | the row's edit action puts that motorcycle under edit |
| MotorcyclesPage.MotorcyclesPage.SetSearchTerm | pages/MotorcyclesPage.tsx:98 | typing sets only the search term; a motorcycle is then on screen iff `Shown` holds for the new term |
| MotorcyclesPage.MotorcyclesPage.HandleSave | pages/MotorcyclesPage.tsx:42-45 | the table becomes the by-id replacement of the old one and the editor closes |
| MotorcyclesPage.MotorcyclesPage.CloseEditor | pages/MotorcyclesPage.tsx:147 | closing the modal clears the motorcycle under edit only |
| MotorcyclesPage.MotorcyclesPage.HandleDelete | pages/MotorcyclesPage.tsx:47-51 | a confirmed delete removes exactly the motorcycles with the id; a declined one changes nothing |
| AgentsPage.FilteredAgents | pages/AgentsPage.tsx:22-26 | an agent is listed iff its name or e-mail contains the term, ignoring case |
| AgentsPage.EmptySearchShowsAll | pages/AgentsPage.tsx:22-26 | an empty term lists every agent in order |
| AgentsPage.Avatar | pages/AgentsPage.tsx:37 | the avatar has at most two characters; its first is the name's upper-cased first character, and an empty name gives an empty avatar |
| AgentsPage.AvatarOfOneWord | pages/AgentsPage.tsx:37 | a name without a space gives a one-letter avatar |
| AgentsPage.FirstSpaceAfterWord | pages/AgentsPage.tsx:37 | in "first rest" the split on spaces starts its second word right after `first` |
| AgentsPage.AvatarOfTwoWords | pages/AgentsPage.tsx:37 | "First Second" gives the two upper-cased initials |
| AgentsPage.Merge | pages/AgentsPage.tsx:31 | an edit keeps id, avatar and daily counters and takes name, e-mail and status from the form, so renaming keeps the avatar |
| AgentsPage.NewAgentId | pages/AgentsPage.tsx:36 | new ids are "agent-" followed by the clock reading |
| AgentsPage.NewAgent | pages/AgentsPage.tsx:34-40 | a new agent has the form's fields, the fresh id, the initials avatar and zero counters |
| AgentsPage.NewAgentIdsDiffer | pages/AgentsPage.tsx:36 | different clock readings give different ids |
| AgentsPage.DeleteUndoesAdd | pages/AgentsPage.tsx:34-49 | deleting a just-added agent under a fresh id restores the list |
| AgentsPage.EditedAgentFound | pages/AgentsPage.tsx:31 | after an edit the merged agent is found under its id |
| AgentsPage.AgentsPage.constructor | pages/AgentsPage.tsx:17-20 | the page starts on the four mock agents, modal closed, nothing under edit |
| AgentsPage.AgentsPage.OpenAddModal | pages/AgentsPage.tsx:53-56 | the add button opens the modal with nothing under edit |
| AgentsPage.AgentsPage.SetSearchTerm | pages/AgentsPage.tsx:108 | typing sets only the search term; an agent is then on screen iff `Shown` holds for the new term |
| AgentsPage.AgentsPage.OpenEditModal | pages/AgentsPage.tsx:58-61 | the edit action opens the modal on that agent |
| AgentsPage.AgentsPage.CloseModal | pages/AgentsPage.tsx:166 | the modal's close hides it and keeps the agent under edit |
| AgentsPage.AgentsPage.HandleSave | pages/AgentsPage.tsx:28-45 | with an agent under edit, the by-id replacement by the merged agent; otherwise the new agent goes first; the modal then closes and nothing is under edit |
| AgentsPage.AgentsPage.HandleDelete | pages/AgentsPage.tsx:47-51 | a confirmed delete removes exactly the agents with the id; a declined one changes nothing |
| InfractionsPage.InitialInfractions | pages/InfractionsPage.tsx:9-14 | four catalogue entries with ids "1".."4" |
| InfractionsPage.NewInfraction | pages/InfractionsPage.tsx:32-38 | a new entry has the form's fields, the clock reading as id and the two timestamps |
| InfractionsPage.Stamped | pages/InfractionsPage.tsx:43 | a save differs from the edited record only in `updatedAt`, which becomes now |
| InfractionsPage.NewIdsDiffer | pages/InfractionsPage.tsx:35 | different clock readings give different ids |
| InfractionsPage.DeleteUndoesAdd | pages/InfractionsPage.tsx:32-50 | deleting a just-added entry under a fresh id restores the catalogue |
| InfractionsPage.SavedInfractionFound | pages/InfractionsPage.tsx:43 | after a save the entry is found under its id with the new timestamp |
| InfractionsPage.InfractionsPage.constructor | pages/InfractionsPage.tsx:28-30 | the page starts on the catalogue with both modals closed |
| InfractionsPage.InfractionsPage.SetAddModalOpen | pages/InfractionsPage.tsx:106 | opening or closing the add modal touches nothing else |
| InfractionsPage.InfractionsPage.SetEditing | pages/InfractionsPage.tsx:107 | choosing or clearing the entry under edit touches nothing else |
| InfractionsPage.InfractionsPage.HandleAdd | pages/InfractionsPage.tsx:32-40 | the new entry goes first and the rest follow unchanged |
| InfractionsPage.InfractionsPage.HandleSave | pages/InfractionsPage.tsx:42-45 | the by-id replacement with the stamped record; the editor closes |
| InfractionsPage.InfractionsPage.HandleDelete | pages/InfractionsPage.tsx:47-51 | a confirmed delete removes exactly the entries with the id; a declined one changes nothing |
| RecordDetail.Lookup | pages/VehicleDetailPage.tsx:66 | the record is the first one carrying the route id; none when there is no id or no record has it |
| RecordDetail.FinesOfPlate | pages/VehicleDetailPage.tsx:67 | exactly the fines whose plate equals the record's plate exactly; none without a record |
| RecordDetail.FinesOfPlateKeepsOrder | pages/VehicleDetailPage.tsx:67 | the listed fines keep the table's order |
| RecordDetail.Detail | pages/VehicleDetailPage.tsx:64-71 | "not found" iff no record carries the id; otherwise the first such record, exactly its plate's fines, and the "no fines" message iff none has its plate |
| RecordDetail.NoFinesForFirstMatch | pages/VehicleDetailPage.tsx:113-131 | the first record with the key and no fine on its plate gives the "no fines" view |
| VehicleDetailPage.Page | pages/VehicleDetailPage.tsx:64-71 | the detail page over the page's own mock vehicles and fines, with the properties of `Detail` |
| VehicleDetailPage.VehicleWithoutFines | pages/VehicleDetailPage.tsx:113-131 | vehicle "5" has no fines, so the page shows the "no fines" message |
| MotorcycleDetailPage.Page | pages/MotorcycleDetailPage.tsx:59-65 | the detail page over the page's own mock motorcycles and fines, with the properties of `Detail` |
| MotorcycleDetailPage.MotorcycleWithoutFines | pages/MotorcycleDetailPage.tsx:104-122 | motorcycle "2" has no fines, so the page shows the "no fines" message |
| AgentDetailPage.Activities | pages/AgentDetailPage.tsx:70 | a non-empty list is the table's entry for the id; a present non-empty id gets its entry; a missing or empty id gets the empty list |
| AgentDetailPage.View | pages/AgentDetailPage.tsx:68-74 | "not found" iff no agent carries the id; otherwise the first agent of the table carrying it, with the id's activities (an empty list for an id the table lacks) |
| AgentDetailPage.Page | pages/AgentDetailPage.tsx:68-74 | the page over its own agents is "not found" iff no mock agent has the id |
| AgentDetailPage.InactiveAgentShowsNoActivity | pages/AgentDetailPage.tsx:115-120 | agent-3 is found with an empty list, so the "no activity" message shows |
| ReportsPage.FinesInZone | pages/ReportsPage.tsx:81-86 | a fine is kept iff the zone is "all" or equals its zone; only fines of the input are kept |
| ReportsPage.PrintsInZone | pages/ReportsPage.tsx:89-94 | a print is kept iff the zone is "all" or equals its zone |
| ReportsPage.Generate | pages/ReportsPage.tsx:72-98 | the report holds fines iff the fines type is selected, filtered by zone only; the period plays no part |
| ReportsPage.AllZonesKeepEverything | pages/ReportsPage.tsx:81-94 | zone "all" keeps every fine and every print, in order |
| ReportsPage.MondayOffset | pages/ReportsPage.tsx:108 | the offset is the number of days from Monday to the month's first weekday, 0..6 |
| ReportsPage.WeekOfMonth | pages/ReportsPage.tsx:105-109 | the result w is in 1..6 and is the Monday-started row of the day: `(w-1)*7 < day + offset <= w*7` |
| ReportsPage.NextDayWeek | pages/ReportsPage.tsx:105-109 | the next day's week is one more exactly when it is a Monday |
| ReportsPage.FirstDayInFirstWeek | pages/ReportsPage.tsx:105-109 | the 1st is always in week 1 |
| ReportsPage.SixthWeekExists | pages/ReportsPage.tsx:105-109 | week 6 occurs: the 30th of a month starting on a Sunday |
| ReportsPage.Items | pages/ReportsPage.tsx:118-127 | the weekly loop reads each row's date and, for fines only, its amount |
| ReportsPage.BucketsAddUp | pages/ReportsPage.tsx:113-128 | the five buckets count every row except those of week 6, which no bucket receives |
| ReportsPage.WeeklyTotals | pages/ReportsPage.tsx:113-128 | the loop's five counters hold, for each week 1..5, the number of rows and the sum of the fine amounts in that week |
| ReportsPage.LineData | pages/ReportsPage.tsx:111-134 | the line is empty unless the period is monthly and there are rows; then it has the five points "Sem 1".."Sem 5" in order, with amounts for fines and counts for prints |
| ReportsPage.WeeklyLine | pages/ReportsPage.tsx:111-134 | the loop-based line equals `LineData` |
| ReportsPage.Distinct | pages/ReportsPage.tsx:143-145 | the accumulator's keys have no repeats and are exactly the keys seen |
| ReportsPage.DistinctGrowsAtEnd | pages/ReportsPage.tsx:143-145 | later rows never reorder the keys already seen |
| ReportsPage.Tally | pages/ReportsPage.tsx:143-146 | one entry per distinct key in first-appearance order, each with its number of occurrences |
| ReportsPage.CountsAreOccurrences | pages/ReportsPage.tsx:143 | the `reduce` accumulator holds exactly the keys seen, each with its number of occurrences |
| ReportsPage.ReduceStep | pages/ReportsPage.tsx:143 | one more key adds one to its count, or enters it with count 1 at the end of the key order when it is new |
| ReportsPage.EntriesOfCounts | pages/ReportsPage.tsx:143-146 | `Object.entries` of the finished accumulator is `Tally` |
| ReportsPage.CountBy | pages/ReportsPage.tsx:143-146 | the `reduce` loop produces exactly `Tally` |
| ReportsPage.SumCountsAddOne | pages/ReportsPage.tsx:143 | one more occurrence adds one to the total iff the key is already listed |
| ReportsPage.TallyAddsUp | pages/ReportsPage.tsx:143-146 | the counts add up to the number of rows |
| ReportsPage.PaidPlusPending | pages/ReportsPage.tsx:140-141 | the paid amount plus the pending amount is the amount of all fines in the report |
| ReportsPage.ChartsCountEveryRow | pages/ReportsPage.tsx:139-158 | the pie and bar values each add up to the report's row total |
| ReportsPage.FilterCountsOccurrences | pages/ReportsPage.tsx:152-155 | the number of prints of a type is that type's count in the pie chart |
| ReportsPage.PrintCardsMatchPie | pages/ReportsPage.tsx:150-156 | the "Permis" and "Cartes Roses" cards equal the pie's slices for them and together never exceed the total |
| ReportsPage.TwoTypesBound | pages/ReportsPage.tsx:152-153 | prints of two different types are never more than all prints |
| ReportsPage.Aggregate | pages/ReportsPage.tsx:101-161 | no report without generated data; otherwise the summary and the three charts of `ReportOf` |
| ReportsPage.ReportsPage.constructor | pages/ReportsPage.tsx:63-67 | fines report, monthly, all zones, nothing generated, not loading |
| ReportsPage.ReportsPage.SetReportType | pages/ReportsPage.tsx:245 | the report-type select changes only the report type, also while loading |
| ReportsPage.ReportsPage.SetPeriod | pages/ReportsPage.tsx:252 | the period select changes only the period, also while loading |
| ReportsPage.ReportsPage.SetZone | pages/ReportsPage.tsx:263 | the zone select changes only the zone, also while loading |
| ReportsPage.ReportsPage.GenerateStart | pages/ReportsPage.tsx:69-72 | with the button enabled (not loading): loading starts, the previous report is cleared and the timer captures the current type, period and zone |
| ReportsPage.ReportsPage.GenerateComplete | pages/ReportsPage.tsx:72-98 | the timer stores the rows of the type and zone captured at the click, whatever the selects show now, and loading ends |
| EditFineModal.Change | components/Admin/EditFineModal.tsx:15-21 | the amount field stores `parseInt(value, 10) \|\| 0`, any other field the raw text; every other field is unchanged |
| EditFineModal.RetypingShownValue | components/Admin/EditFineModal.tsx:19 | typing back a field's shown value leaves the fine unchanged |
| EditFineModal.EnabledChangeKeepsFine | components/Admin/EditFineModal.tsx:40-41 | typing in an enabled input keeps the form's id, plate and driver |
| EditFineModal.EditFineModal.constructor | components/Admin/EditFineModal.tsx:12-13 | the form starts equal to the fine, not submitting, and names that fine |
| EditFineModal.EditFineModal.HandleChange | components/Admin/EditFineModal.tsx:15-48 | only the enabled inputs (reason, amount, status; plate and driver are disabled) can be typed in; the form becomes `Change` of the old form and still names the fine under edit |
| EditFineModal.EditFineModal.SubmitStart | components/Admin/EditFineModal.tsx:23-26 | submitting starts and the timer captures the current form |
| EditFineModal.EditFineModal.SubmitComplete | components/Admin/EditFineModal.tsx:26-30 | the timer hands over the captured form, which keeps the edited fine's id, plate and driver; submitting ends and the modal closes |
| InfractionFields.WithEditable | components/Admin/EditInfractionModal.tsx:17-20 | the record's edited fields become the given ones; id and timestamps are kept; writing back its own fields gives the record |
| InfractionFields.Change | components/Admin/AddInfractionModal.tsx:20-26 | the amount field stores `parseInt(value, 10) \|\| 0`, any other field the raw text; every other field is unchanged |
| InfractionFields.RetypingShownValue | components/Admin/AddInfractionModal.tsx:24 | typing back a field's shown value leaves the form unchanged |
| InfractionFields.CanSubmitIffTextsFilled | components/Admin/AddInfractionModal.tsx:45-100 | the browser lets the form submit iff code, label and description are non-empty; the amount input always shows a number |
| AddInfractionModal.FreshFormCannotSubmit | components/Admin/AddInfractionModal.tsx:11-53 | the empty form is stopped by the browser: its code is required and empty |
| AddInfractionModal.AddInfractionModal.constructor | components/Admin/AddInfractionModal.tsx:11-18 | empty code, label and description, severity "LEGER", amount 0 |
| AddInfractionModal.AddInfractionModal.HandleChange | components/Admin/AddInfractionModal.tsx:20-26 | the form becomes `Change` of the old form |
| AddInfractionModal.AddInfractionModal.SubmitStart | components/Admin/AddInfractionModal.tsx:28-100 | with a required input empty the browser stops the submit and nothing changes; otherwise submitting starts and the timer captures the current form |
| AddInfractionModal.AddInfractionModal.SubmitComplete | components/Admin/AddInfractionModal.tsx:32-36 | the captured form is handed to `onAdd` once, submitting ends and the modal closes |
| EditInfractionModal.ChangeRecord | components/Admin/EditInfractionModal.tsx:15-21 | the edited fields change as `InfractionFields.Change` says; id and timestamps are kept |
| EditInfractionModal.RetypingKeepsRecord | components/Admin/EditInfractionModal.tsx:19 | typing back a field's shown value leaves the whole entry unchanged |
| EditInfractionModal.CatalogueEntriesCanSubmit | components/Admin/EditInfractionModal.tsx:41-91 | each entry of the start-up catalogue fills every required input, so it can be saved unchanged |
| EditInfractionModal.EditInfractionModal.constructor | components/Admin/EditInfractionModal.tsx:12-13 | the form starts equal to the entry, not submitting, and the form keeps the entry's id (`Valid`) |
| EditInfractionModal.EditInfractionModal.HandleChange | components/Admin/EditInfractionModal.tsx:15-21 | the form becomes `Change` of the old form and still carries the entry's id |
| EditInfractionModal.EditInfractionModal.SubmitStart | components/Admin/EditInfractionModal.tsx:23-91 | with a required input empty the browser stops the submit and nothing changes; otherwise submitting starts and the timer captures the current form |
| EditInfractionModal.EditInfractionModal.SubmitComplete | components/Admin/EditInfractionModal.tsx:27-31 | the captured form goes to `onSave` with the id of the entry under edit, submitting ends and the modal closes |
| Registration.EmailGate | components/Agent/RegisterLicenseModal.tsx:85 | an empty e-mail never stops the submit; a filled-in one without `@` always does |
| Registration.InputValue | components/Agent/RegisterLicenseModal.tsx:85 | the e-mail input stores the sanitised text, every other input the raw text |
| Registration.Toggle | components/Agent/RegisterLicenseModal.tsx:24-27 | checking appends the value at the end and keeps the rest; unchecking leaves no occurrence of it and keeps every other category |
| Registration.UncheckCounts | components/Agent/RegisterLicenseModal.tsx:26 | unchecking removes exactly the value's occurrences: every other category keeps its count |
| Registration.UncheckKeepsOrder | components/Agent/RegisterLicenseModal.tsx:26 | unchecking keeps the order of the remaining categories |
| Registration.UncheckAbsent | components/Agent/RegisterLicenseModal.tsx:26 | unchecking an unselected category changes nothing |
| Registration.CheckThenUncheck | components/Agent/RegisterLicenseModal.tsx:26 | checking a new category and unchecking it restores the selection |
| Registration.UncheckTwice | components/Agent/RegisterLicenseModal.tsx:26 | a second uncheck changes nothing |
| Registration.ClickKeepsMirror | components/Agent/RegisterLicenseModal.tsx:97-99 | a click on an offered box keeps the list a mirror of the ticked boxes: each ticked category once, nothing else |
| RegisterLicenseModal.Submit | components/Agent/RegisterLicenseModal.tsx:34-44 | rejected with the category alert iff no category is checked; otherwise the form plus the categories are handed over with the success alert |
| RegisterLicenseModal.InitialFormDefaults | components/Agent/RegisterLicenseModal.tsx:11-15 | only the authority "CNPC/RDC" and the restrictions "Aucune" start non-empty |
| RegisterLicenseModal.FreshFormIsRejected | components/Agent/RegisterLicenseModal.tsx:36-39 | a fresh form cannot be submitted |
| RegisterLicenseModal.RegisterLicenseModal.constructor | components/Agent/RegisterLicenseModal.tsx:11-17 | the initial form, no category, webcam closed |
| RegisterLicenseModal.RegisterLicenseModal.HandleChange | components/Agent/RegisterLicenseModal.tsx:19-22 | only the named field changes, to `InputValue` of the typed text |
| RegisterLicenseModal.RegisterLicenseModal.HandleCatChange | components/Agent/RegisterLicenseModal.tsx:24-27 | the categories become `Toggle` of the old ones |
| RegisterLicenseModal.RegisterLicenseModal.OpenWebcam | components/Agent/RegisterLicenseModal.tsx:63 | the photo button opens the webcam |
| RegisterLicenseModal.RegisterLicenseModal.CloseWebcam | components/Agent/RegisterLicenseModal.tsx:117 | the webcam's close hides it |
| RegisterLicenseModal.RegisterLicenseModal.HandleCapture | components/Agent/RegisterLicenseModal.tsx:29-32 | a capture sets only `photo_data` and closes the webcam |
| RegisterLicenseModal.RegisterLicenseModal.HandleSubmit | components/Agent/RegisterLicenseModal.tsx:34-85 | `handleSubmit` runs iff the birth-date input holds no bad input and the e-mail is empty or valid; then the outcome is `Submit` of the current form and the modal closes exactly when the application goes through |
| RegisterVehicleModal.Submit | components/Agent/RegisterVehicleModal.tsx:35-41 | every form goes through, categories or not, with the success alert |
| RegisterVehicleModal.InitialFormDefaults | components/Agent/RegisterVehicleModal.tsx:11-16 | only the status "Actif" starts non-empty |
| RegisterVehicleModal.RegisterVehicleModal.constructor | components/Agent/RegisterVehicleModal.tsx:11-18 | the initial form, no category, webcam closed |
| RegisterVehicleModal.RegisterVehicleModal.HandleChange | components/Agent/RegisterVehicleModal.tsx:20-23 | only the named field changes, to `InputValue` of the typed text |
| RegisterVehicleModal.RegisterVehicleModal.HandleCatChange | components/Agent/RegisterVehicleModal.tsx:25-28 | the categories become `Toggle` of the old ones |
| RegisterVehicleModal.RegisterVehicleModal.OpenWebcam | components/Agent/RegisterVehicleModal.tsx:60 | the photo button opens the webcam |
| RegisterVehicleModal.RegisterVehicleModal.CloseWebcam | components/Agent/RegisterVehicleModal.tsx:131 | the webcam's close hides it |
| RegisterVehicleModal.RegisterVehicleModal.HandleCapture | components/Agent/RegisterVehicleModal.tsx:30-33 | a capture sets only `photo_data` and closes the webcam |
| RegisterVehicleModal.RegisterVehicleModal.HandleSubmit | components/Agent/RegisterVehicleModal.tsx:35-106 | `handleSubmit` runs iff no date input and not the year input holds bad input and the e-mail is empty or valid; then the outcome is `Submit` of the current form and the modal closes; a blocked submit leaves the modal open |
| PrintSearch.NormalizeIgnoresPadding | components/Agent/PrintLicenseModal.tsx:40 | surrounding whitespace does not change the lookup key |
| PrintSearch.NormalizeIgnoresCase | components/Agent/PrintLicenseModal.tsx:40 | letter case does not change the lookup key |
| PrintSearch.NormalizeKeepsInnerText | components/Agent/PrintLicenseModal.tsx:40 | apart from case, the key is the trimmed input, inner characters included |
| PrintSearch.NormalKeyIsFixed | components/Agent/PrintLicenseModal.tsx:40-41 | a key with no surrounding whitespace and no lower-case letter normalises to itself |
| PrintSearch.MissMessage | components/Agent/PrintLicenseModal.tsx:45 | the error names the normalised key |
| PrintSearch.Resolve | components/Agent/PrintLicenseModal.tsx:40-46 | a hit iff the normalised key is in the table, with its record; otherwise the error naming the key |
| PrintSearch.ResolveIgnoresPaddingAndCase | components/Agent/PrintLicenseModal.tsx:40-41 | padding and lower-casing the input give the same search result |
| PrintSearch.SearchModal.constructor | components/Agent/PrintLicenseModal.tsx:26-29 | empty input, not loading, no error, no record |
| PrintSearch.SearchModal.SetInput | components/Agent/PrintLicenseModal.tsx:51-70 | typing, possible only while the search form is on screen (no record previewed), changes only the input |
| PrintSearch.SearchModal.SearchStart | components/Agent/PrintLicenseModal.tsx:31-63 | only from the search form, not while loading: a blank input changes nothing; otherwise loading starts, error and record are cleared, and the timer captures the input |
| PrintSearch.SearchModal.SearchComplete | components/Agent/PrintLicenseModal.tsx:39-48 | a hit sets the record and no error, a miss sets the error and no record; loading ends |
| PrintLicenseModal.FiledUnderOwnNumber | components/Agent/PrintLicenseModal.tsx:7-19 | each licence is filed under its own number |
| PrintLicenseModal.FoundExactly | components/Agent/PrintLicenseModal.tsx:40-46 | a search hits iff the normalised input is "P123456789" |
| PrintLicenseModal.Open | components/Agent/PrintLicenseModal.tsx:25-29 | a fresh modal over the licence table |
| PrintPinkCardModal.FiledUnderOwnPlate | components/Agent/PrintPinkCardModal.tsx:7-30 | each vehicle is filed under its own plate |
| PrintPinkCardModal.FoundExactly | components/Agent/PrintPinkCardModal.tsx:51-57 | a search hits iff the normalised plate is "BB123C" or "GOM45D" |
| PrintPinkCardModal.Open | components/Agent/PrintPinkCardModal.tsx:36-40 | a fresh modal over the vehicle table |
| PrintAttestationModal.FiledUnderOwnPlate | components/Agent/PrintAttestationModal.tsx:7-30 | each motorcycle is filed under its own plate |
| PrintAttestationModal.FoundExactly | components/Agent/PrintAttestationModal.tsx:51-57 | a search hits iff the normalised plate is "GOM 456 CD" or "GOM 789 EF" |
| PrintAttestationModal.InnerSpacesMatter | components/Agent/PrintAttestationModal.tsx:51-52 | "GOM456CD" without its inner spaces is not found |
| PrintAttestationModal.Open | components/Agent/PrintAttestationModal.tsx:36-40 | a fresh modal over the motorcycle table |
| AppRoutes.SupervisorRoute | App.tsx:33-48 | "/" and unknown paths redirect to /dashboard; no agent or public screen is shown |
| AppRoutes.AgentRoute | App.tsx:49-56 | "/" and unknown paths redirect to /agent-dashboard; only the agent home, printing and settings are shown |
| AppRoutes.Resolve | App.tsx:24-61 | /login and /local-payment-simulator show their pages whatever the session |
| AppRoutes.RoleRoutesAreGuarded | App.tsx:25-56 | no role route shadows a public page |
| AppRoutes.SignedInRoutes | App.tsx:27-56 | a signed-in Superviseur gets the supervisor table and an Agent the agent table |
| AppRoutes.SignedOutGoesToLogin | App.tsx:27-31 | signed out, every other path redirects to /login |
| AppRoutes.NoRoleGoesToLogin | App.tsx:57-59 | signed in without a user, every other path redirects to /login |
| AppRoutes.LowerName | App.tsx:36-54 | a lower-case segment matches its own route name |
| AppRoutes.SharedPathsArePublicOrSettings | App.tsx:36-54 | a path both roles see as a page is the settings page |
| AppRoutes.OneRedirectSuffices | App.tsx:24-61 | following a redirect once always reaches a page |
| Sidebar.NavItems | components/Sidebar.tsx:9-24 | a Superviseur gets the six admin links, anyone else (even no one) the three agent links; both end with /settings |
| Sidebar.MenuMatchesRoutes | components/Sidebar.tsx:9-24 | every link of a signed-in user's menu opens a page of that user's role |
| Sidebar.AdminLinkRouted | components/Sidebar.tsx:9-16 | every admin link is a supervisor page |
| Sidebar.AgentLinkRouted | components/Sidebar.tsx:18-22 | every agent link is an agent page |
| Sidebar.AgentsAndReportsUnlinked | components/Sidebar.tsx:9-24 | no menu links to /agents or /reports |
| FormValidation.SanitizeEmail | pages/LoginPage.tsx:63-65 | the e-mail input's value has no line break and no leading or trailing whitespace, and is never longer than what was typed |
| FormValidation.CleanValueKept | pages/LoginPage.tsx:63-65 | a value already clean is kept as it is |
| FormValidation.SanitizeIdempotent | pages/LoginPage.tsx:63-65 | sanitising twice is sanitising once |
| FormValidation.SanitizePassword | pages/LoginPage.tsx:75-77 | the password input's value has no line break and equals the typed text when that has none |
| FormValidation.SimpleAddressValid | pages/LoginPage.tsx:63 | `name@host.tld` with an alphanumeric name and two alphanumeric labels of 1 to 63 characters is a valid address |
| FormValidation.NoAtSignInvalid | pages/LoginPage.tsx:63 | a text without `@`, the empty text included, is not a valid address |
| FormValidation.ValidEmailIgnoresCase | pages/LoginPage.tsx:63 | validity does not depend on letter case |
| FormValidation.ValidEmailIsClean | pages/LoginPage.tsx:63-65 | a valid address is unchanged by sanitising |
| LoginPage.Authenticate | pages/LoginPage.tsx:18-26 | the admin credentials log in the supervisor to /dashboard, the agent credentials the agent to /agent-dashboard, anything else fails with the message; each iff |
| LoginPage.AccountsExclusive | pages/LoginPage.tsx:18-23 | no input satisfies both accounts |
| LoginPage.EmailCaseIgnored | pages/LoginPage.tsx:18-21 | the e-mail's case does not matter |
| LoginPage.PasswordCaseMatters | pages/LoginPage.tsx:18-21 | an upper-cased password fails |
| LoginPage.LoginLandsOnPage | pages/LoginPage.tsx:18-23 | a successful login's destination shows a page to the user just signed in |
| LoginPage.AdminLandsOnDashboard | pages/LoginPage.tsx:20 | the supervisor's /dashboard shows the dashboard |
| LoginPage.AgentLandsOnDashboard | pages/LoginPage.tsx:23 | the agent's /agent-dashboard shows the agent home |
| LoginPage.LoginPage.constructor | pages/LoginPage.tsx:6-8 | empty e-mail, password and error |
| LoginPage.LoginPage.SetEmail | pages/LoginPage.tsx:63-65 | typing changes only the e-mail, which holds the sanitised value: no line breaks, no surrounding whitespace |
| LoginPage.LoginPage.SetPassword | pages/LoginPage.tsx:75-77 | typing changes only the password, which holds the typed text without line breaks |
| LoginPage.AccountEmailsValid | pages/LoginPage.tsx:18-23 | both account e-mails are valid addresses |
| LoginPage.LoginsPassValidation | pages/LoginPage.tsx:56-80 | every e-mail and password that log in pass the browser's checks, so validation never blocks a login |
| LoginPage.LoginPage.HandleLogin | pages/LoginPage.tsx:12-80 | `handleLogin` runs iff the e-mail is a valid address and the password is non-empty; then the outcome is `Authenticate` of the fields and the error is the message on failure and cleared otherwise; a blocked submit keeps the error |

## Left out

- PDF and CSV export (`exportToPdf`, `exportToCsv`) use jsPDF, Papa Parse, `Blob` and DOM
  clicks. They are left out as foreign libraries and I/O.
- `alert`, `console.log`, the webcam, the QR code, the printable cards and the PDF preview
  are left out as I/O and rendering. A submit outcome carries its alert text.
- `toLocaleString` formatting of amounts and dates is left out. Amounts are integers.
- JavaScript `Date` parsing and time zones are left out. The week computation receives the
  day of the month and the month's first weekday through the `localDay` parameter.
- `String(n)` for `n >= 1e21` (exponent notation) is left out. So is the float precision
  of `parseInt` beyond 2^53, since integers are unbounded here.
- AgentsPage.Avatar: `charAt(0)` takes a UTF-16 code unit, while a Dafny string is a
  sequence of Unicode scalar values. For a name or second word that opens with a
  character outside the Basic Multilingual Plane (an emoji, say), the source's initial
  is a lone surrogate and the model's is the whole character. No other member sees the
  difference on well-formed text.
- Case mapping covers ASCII letters only. Other characters map to themselves, so
  `toLowerCase` and `toUpperCase` on accented letters are not modelled.
- `Object.entries` lists integer-like keys first. The tallies assume insertion order,
  which is exact for the status, zone, type and agent names in the data.
- ReportsPage.Counts: the tallies' accumulators are plain objects, so `acc[key]` reads
  through the prototype (pages/ReportsPage.tsx:143, 145, 155, 157). A key such as
  "toString" would start from a function rather than from 0. The map model has no
  prototype, so that case is not modelled.
- ReportsPage.Aggregate: the source chooses the summary and the line values by the
  report-type selector (pages/ReportsPage.tsx:129, 136). The model chooses them by the
  kind of rows generated. The two differ only when the selector is changed after a
  report was generated. The source then reads fields the rows do not have, and that
  case is not modelled.
- AgentDetailPage.Activities: an id such as "constructor" would reach a prototype member
  through `mockActivities[id]`. The map model has no prototype, so it is not modelled.
- Route paths are lists of decoded segments. Trailing slashes, percent-decoding and the
  outer `path="*"` redirect to "/" are not modelled.
- The authentication context is not part of this model. A login returns the user and the
  destination, and routes take the session as a value.
- The three form modals with a submit timer (edit fine, add infraction, edit infraction)
  disable their submit button while submitting. The model allows further submits and
  queues the captured forms; the single-submit case is the one the page sees.
- The browser's validation messages (the bubble next to an invalid input) are left out as
  rendering. A blocked submit is modelled as a submit that changes nothing.
- Number inputs of the fine and infraction forms (the amounts) are not validated by the model.
  A browser hands a non-numeric entry to `onChange` as the empty text and refuses to submit it as
  bad input; the model passes the typed text through. On the two registration forms the
  browser's bad-input state of the date inputs and of the vehicle year is the `badInput`
  argument of `HandleSubmit`, which blocks the submit.
- E-mail validation covers the single-address grammar of the HTML standard. The `multiple`
  attribute and internationalised domain names are not used by these forms and are left out.
- The agent-dashboard and printing pages, the dashboard's constant charts and the payment
  simulator are left out as constant data and modal switches.
- The vehicle and motorcycle edit modals, the motorcycle registration modal and the
  add-agent modal are left out as plain field setters. The agents page's `handleSave` is
  modelled directly. The add-agent modal destructures `onAdd` while the page passes
  `onSave`, so its save path calls an undefined function.
- The timer delays are left out: each timer is a start step followed by a completion step.
