# Clinician dashboard — a Dafny model of its behaviour

The dashboard is a React front end for clinicians. It works over hard-coded
lists of patients, appointments, consultations, reports, assistant visits,
earnings and notifications. This project models the parts of it that carry
logic and proves what they promise:

- **The two chat assistants.** One is the AI diagnostic panel on a patient's
  profile; the other is the standalone AI assistant page.
  - Each keeps a message log and three flags: the text box, the suggestion
    list and the "analyzing" indicator.
  - A blank message is ignored; any other message is logged verbatim.
  - A reply is chosen by testing the lowercased message against an ordered
    list of keywords; the first match wins and a default reply catches the
    rest.
  - The session is a class (`Chat.Session`). Its invariant ties the log to
    the messages sent and the replies given. The two reply selectors are
    functions, each proved equal to a first-match rule table
    (`KeywordRules`).
- **The working-hours editor** on the settings page. It is a class holding
  the list of time blocks and the two hour pickers. It can add a block,
  delete blocks by id and build the 24 hour labels.
- **Search boxes and status tabs.**
  - Patients, consultations, reports and assistant visits each have a
    case-insensitive substring search over some of their fields.
  - The result is split by status. Each split is an order-preserving filter,
    and a closed set of statuses makes the buckets a partition.
  - Appointments are split into tabs, and their status and action labels are
    modelled.
- **Aggregates and lookups.**
  - The earnings totals, kept in integer cents.
  - The unread notification count.
  - Patient lookup with a fallback, the latest-vitals slice, the insurance
    badge and the life-insurance prompt.
  - The prescription end-date text.
  - The show/hide toggle of the AI panel.

Strings are `seq<char>`. `toLowerCase`/`toUpperCase` map ASCII letters
only. `trim` removes the characters JavaScript treats as white space or line
terminators.

## Model

| member | source | states |
|---|---|---|
| Text.TrimsToEmpty | src/components/patient/AIAssistant.tsx:32 | `!message.trim()` holds exactly when every character of the message is white space |
| Text.Trim | src/pages/AIBot.tsx:27 | `trim` returns a contiguous part of the string that neither starts nor ends with white space, and it is empty iff the string is blank (both directions) |
| Text.ToLower | src/components/patient/AIAssistant.tsx:47 | `toLowerCase` keeps the length and lowercases each ASCII letter in place; `LowerAbsorbsCase` shows it forgets earlier case changes |
| Text.Includes | src/components/patient/AIAssistant.tsx:47 | `includes` is true iff the keyword occurs as a contiguous part of the text |
| Text.LowerAbsorbsCase | src/pages/Patients.tsx:241-244 | lowercasing is idempotent and erases an earlier upper-casing |
| Text.MissingFromLower | src/pages/AIBot.tsx:39 | a lowercased message can contain a keyword only if the original has each of the keyword's letters in some case |
| Lists.Filter | src/pages/Settings.tsx:57 | `filter` keeps exactly the elements that pass the test, in their original order (an order-preserving subsequence) |
| Lists.FilterMultiplicity | src/pages/Patients.tsx:241-244 | `filter` keeps every passing element as often as it occurs and drops every other one, so each page's filtered list loses no duplicates |
| KeywordRules.FirstMatch | src/components/patient/AIAssistant.tsx:47-129 | the chosen rule matches and every earlier rule fails; past the end means no rule matched |
| KeywordRules.RespondCharacterized | src/pages/AIBot.tsx:39-198 | when replies are distinct, rule j's reply is given iff rule j matches and no earlier one does; the default is given iff no rule matches |
| Chat.ProjectionSizes | src/components/patient/AIAssistant.tsx:13-18 | every log entry is a user entry or an assistant entry, so the two projections add up to the log |
| Chat.ProjectionsOfAppend | src/components/patient/AIAssistant.tsx:35-38 | appending one entry extends exactly one projection of the log by that entry |
| Chat.SentKeepsConsistent | src/components/patient/AIAssistant.tsx:35-41 | logging a user message and queueing its reply keeps the log invariant |
| Chat.DeliveredKeepsConsistent | src/components/patient/AIAssistant.tsx:41-42 | answering the oldest waiting message keeps the log invariant, with the indicator off |
| Chat.Consistent | src/components/patient/AIAssistant.tsx:31-42 | the session invariant: the log opens with the greeting, its user entries are the answered then the waiting messages, its replies are the answers in order, the indicator is off when nothing waits; such a log has one greeting, one entry per message and one per reply |
| Chat.ReplyAll | src/components/patient/AIAssistant.tsx:131 | the replies to a list of messages: one per message, each the responder's answer to it |
| Chat.Session.constructor | src/pages/AIBot.tsx:8-16 | the log is exactly the greeting; input is empty; suggestions are shown; the indicator is off; nothing waits |
| Chat.Session.SetInput | src/components/patient/AIAssistant.tsx:215 | typing replaces the text box only; the log, flags and queue are unchanged |
| Chat.Session.Send | src/components/patient/AIAssistant.tsx:31-38 | a blank message changes nothing; any other message is appended untrimmed as one user entry, the box is cleared, suggestions are hidden, the indicator is on and the message waits for its reply; the invariant is kept (the assistant page's handler, AIBot.tsx lines 26-32, is identical) |
| Chat.Session.SendInput | src/components/patient/AIAssistant.tsx:218-222 | Enter or the Send button sends the text box's contents, with the effects of Send |
| Chat.Session.Deliver | src/components/patient/AIAssistant.tsx:41-42 | the oldest waiting message gets exactly one assistant entry with the responder's reply, appended after all earlier entries; the indicator is off; input and suggestions are unchanged (the same on the assistant page, AIBot.tsx lines 34-35 and 200) |
| PatientAssistant.Classify | src/components/patient/AIAssistant.tsx:47-129 | the reply selector never picks the greeting; `ClassifyIsFirstMatch` shows it is the first-match reading of its rule table |
| PatientAssistant.Answer | src/components/patient/AIAssistant.tsx:47-129 | the reply carries the patient's name and is never the greeting |
| PatientAssistant.Open | src/components/patient/AIAssistant.tsx:13-21 | a new panel's log is the greeting for that patient; it answers with `Answer`; the box is empty, suggestions are shown and nothing waits |
| PatientAssistant.ClassifyIsFirstMatch | src/components/patient/AIAssistant.tsx:47-129 | the `if / else if` chain equals the first-match reading of its rule table, with the observations template as default |
| PatientAssistant.ClassifyOrder | src/components/patient/AIAssistant.tsx:59-113 | rule j's template is chosen iff rule j matches the lowercased message and no earlier rule does; observations is chosen iff no rule matches |
| PatientAssistant.RiskAndCardiovascularFirst | src/components/patient/AIAssistant.tsx:47-58 | a message with both "risk" and "cardiovascular" gets the cardiovascular-risk template, whatever else it contains |
| PatientAssistant.ObservationsIffNoKeyword | src/components/patient/AIAssistant.tsx:114-129 | the default observations template is chosen iff none of the keywords occurs |
| PatientAssistant.ClassifyByKeywords | src/components/patient/AIAssistant.tsx:47-129 | the template as a function of which keywords occur in the lowercased message |
| PatientAssistant.ClassifyIgnoresCase | src/components/patient/AIAssistant.tsx:47 | upper- or lower-casing the message does not change the template |
| PatientAssistant.AnswerDependsOnLowercase | src/components/patient/AIAssistant.tsx:47-129 | two messages with the same lowercase form get the same reply for the same patient |
| PatientAssistant.RiskPromptRouted | src/components/patient/AIAssistant.tsx:24 | the first suggested prompt gets the cardiovascular-risk template |
| PatientAssistant.FollowUpPromptRouted | src/components/patient/AIAssistant.tsx:25 | the follow-up prompt gets the follow-up-tests template |
| PatientAssistant.HeadachePromptRouted | src/components/patient/AIAssistant.tsx:26 | the headaches prompt gets the headache-causes template |
| PatientAssistant.MedicationPromptRouted | src/components/patient/AIAssistant.tsx:27 | the medication prompt gets the medication-alternatives template |
| PatientAssistant.FamilyPromptRouted | src/components/patient/AIAssistant.tsx:28 | the family-history prompt gets the family-history template |
| PatientAssistant.SuggestionsRouted | src/components/patient/AIAssistant.tsx:23-29 | there are five prompts; none gets the default; no two get the same template |
| AssistantPage.Open | src/pages/AIBot.tsx:8-16 | the page's log is exactly one greeting entry; it answers with `Classify`; the box is empty, suggestions are shown and nothing waits |
| AssistantPage.Classify | src/pages/AIBot.tsx:39-198 | the reply selector never answers with the greeting; `ClassifyIsFirstMatch` shows it is the first-match reading of its rule table |
| AssistantPage.ClassifyIsFirstMatch | src/pages/AIBot.tsx:39-198 | the chain equals the first-match reading of its rule table, with general help as default |
| AssistantPage.ClassifyOrder | src/pages/AIBot.tsx:39-170 | rule j's reply is chosen iff its keyword occurs and no earlier keyword does; general help is chosen iff none occurs |
| AssistantPage.ClassifyByKeywords | src/pages/AIBot.tsx:39-198 | the reply as a function of which keywords occur, in the order "chest pain", "diabetes", "lab report", "hypertension", "cardiovascular" |
| AssistantPage.DiabetesBeforeHypertension | src/pages/AIBot.tsx:61-111 | a message naming diabetes and hypertension, but not chest pain, gets the diabetes reply |
| AssistantPage.ClassifyIgnoresCase | src/pages/AIBot.tsx:39 | upper- or lower-casing the message does not change the reply |
| AssistantPage.ChestPainPromptRouted | src/pages/AIBot.tsx:19 | the chest-pain prompt gets the chest-pain reply |
| AssistantPage.DiabetesPromptRouted | src/pages/AIBot.tsx:20 | the diabetes prompt gets the diabetes reply |
| AssistantPage.LabReportPromptRouted | src/pages/AIBot.tsx:21 | the lab-report prompt gets the lab-report reply |
| AssistantPage.HypertensionPromptRouted | src/pages/AIBot.tsx:22 | the hypertension prompt gets the hypertension reply, although it also names "alternative medications" |
| AssistantPage.CardiovascularPromptRouted | src/pages/AIBot.tsx:23 | the cardiovascular prompt gets the cardiovascular reply |
| AssistantPage.SuggestionsRouted | src/pages/AIBot.tsx:18-24 | there are five prompts; none gets the default; no two get the same reply |
| Settings.WithoutBlock | src/pages/Settings.tsx:56-58 | a block survives deletion iff its id differs from the argument; survivors keep their order |
| Settings.WithoutBlockCounts | src/pages/Settings.tsx:57 | every block with another id keeps its multiplicity; blocks with the id are all gone |
| Settings.WithoutAbsentId | src/pages/Settings.tsx:57 | deleting an id no block has leaves the list unchanged |
| Settings.WithoutBlockIdempotent | src/pages/Settings.tsx:57 | deleting the same id twice equals deleting it once |
| Settings.RemoveUndoesAdd | src/pages/Settings.tsx:41-58 | deleting a freshly added block whose id was not in use restores the previous list |
| Settings.ScheduleEditor.constructor | src/pages/Settings.tsx:33-39 | the blocks start as 09:00–12:00 and 14:00–17:00, and both pickers are empty |
| Settings.ScheduleEditor.SelectStart | src/pages/Settings.tsx:166-168 | picking a start hour changes only the start picker |
| Settings.ScheduleEditor.SelectEnd | src/pages/Settings.tsx:184-186 | picking an end hour changes only the end picker |
| Settings.ScheduleEditor.AddBlock | src/pages/Settings.tsx:41-54 | with both hours picked, one block with those hours is appended after the others and both pickers are cleared, with no range or order check; otherwise nothing changes |
| Settings.ScheduleEditor.DeleteBlock | src/pages/Settings.tsx:56-58 | the blocks become `WithoutBlock` of the old blocks; the pickers are unchanged |
| Settings.DecimalString | src/pages/Settings.tsx:175 | `String(i)` for hours: one digit below ten, two digits below a hundred |
| Settings.PadStart | src/pages/Settings.tsx:175 | `padStart` keeps the string as its suffix and fills the front with the pad character up to the width |
| Settings.HourLabel | src/pages/Settings.tsx:175 | the label of hour h is its two zero-padded digits followed by ":00" |
| Settings.HourLabelParses | src/pages/Settings.tsx:175 | every label reads back as its hour |
| Settings.HourOptions | src/pages/Settings.tsx:174-177 | exactly 24 options; option h reads back as hour h, so no two are the same |
| Settings.HourOptionsRange | src/pages/Settings.tsx:192-195 | the options run from "00:00" to "23:00" |
| Earnings.OfKind | src/pages/Earnings.tsx:126-128 | a type list holds exactly the earnings of that type, in order |
| Earnings.KindsPartition | src/pages/Earnings.tsx:14 | the three type lists are disjoint and their lengths add up to the number of earnings |
| Earnings.SumFromIsSum | src/pages/Earnings.tsx:130 | the left-to-right `reduce` from an accumulator equals the accumulator plus the sum |
| Earnings.Total | src/pages/Earnings.tsx:130 | `totalEarnings` is the sum of all amounts |
| Earnings.SumOfConcat | src/pages/Earnings.tsx:130 | the sum of two lists joined is the sum of their sums |
| Earnings.SumOfFiltered | src/pages/Earnings.tsx:131-133 | summing the status-filtered list equals summing the amounts with that status |
| Earnings.PendingTotal | src/pages/Earnings.tsx:131-133 | `pendingEarnings` is the sum of the pending amounts |
| Earnings.PaidAndPendingMakeTotal | src/pages/Earnings.tsx:130-133 | the paid total plus `pendingEarnings` is `totalEarnings` |
| Earnings.StatusSumsAddUp | src/pages/Earnings.tsx:15 | status is only paid or pending, so the two status sums add up to the total |
| Earnings.SumWithStatusNonNegative | src/pages/Earnings.tsx:131-133 | with non-negative amounts, a status sum is non-negative |
| Earnings.PendingWithinTotal | src/pages/Earnings.tsx:130-133 | with non-negative amounts, 0 ≤ pending ≤ total |
| Earnings.OfKindCounts | src/pages/Earnings.tsx:126-128 | a type list's length is the number of earnings of that type |
| Earnings.ShippedTotal | src/pages/Earnings.tsx:73-130 | an instance of `Total` on the shipped mock data, for illustration: it totals 500.00 |
| Earnings.ShippedPending | src/pages/Earnings.tsx:73-133 | an instance of `PendingTotal` on the shipped mock data, for illustration: 175.00 |
| Earnings.ShippedKindCounts | src/pages/Earnings.tsx:73-124 | an instance on the shipped mock data, for illustration: two consultations, two referrals and one insurance earning |
| Earnings.ShippedKinds | src/pages/Earnings.tsx:126-128 | an instance of `KindsPartition` on the shipped mock data, for illustration: type lists of lengths 2, 2 and 1 |
| Search.Matches | src/pages/Patients.tsx:242-243 | a field matches iff the lowercased term occurs in the lowercased field |
| Search.EmptyTermMatches | src/pages/Patients.tsx:241-244 | the empty term matches every field |
| Search.MatchesIgnoresTermCase | src/pages/Patients.tsx:241-244 | upper- or lower-casing the term does not change any match |
| AssistantVisits.Filtered | src/pages/AssistantVisits.tsx:192-197 | a visit is kept iff the query occurs, ignoring case, in its patient name, assistant name or address; order is kept |
| AssistantVisits.EmptyQueryKeepsAll | src/pages/AssistantVisits.tsx:192-197 | an empty query keeps every visit |
| AssistantVisits.WithStatus | src/pages/AssistantVisits.tsx:199-201 | a status list holds exactly the filtered visits with that status, in order |
| AssistantVisits.StatusesPartition | src/pages/AssistantVisits.tsx:199-201 | the three status lists are disjoint and their lengths add up to the filtered length |
| AssistantVisits.NoVisitsFound | src/pages/AssistantVisits.tsx:244 | the test "all three status lists empty" holds iff no visit matches the search |
| AssistantVisits.LiveCount | src/pages/AssistantVisits.tsx:226 | the Live Visits count is the filtered length minus the scheduled and completed visits; it is 0 iff no filtered visit is in progress |
| Consultations.Filtered | src/pages/Consultations.tsx:117-120 | a consultation is kept iff the term occurs, ignoring case, in its patient name or reason; order is kept |
| Consultations.EmptyTermKeepsAll | src/pages/Consultations.tsx:117-120 | an empty term keeps every consultation, in order |
| Consultations.WithStatus | src/pages/Consultations.tsx:122-123 | a tab list holds exactly the filtered consultations with that status, in order |
| Consultations.TabsWithinFiltered | src/pages/Consultations.tsx:191-195 | the upcoming and completed tabs are disjoint; together they are no longer than the filtered list, and exactly as long iff none is cancelled |
| Consultations.NoUpcoming | src/pages/Consultations.tsx:167 | the empty state is shown iff no filtered consultation is upcoming |
| Reports.Filtered | src/pages/Reports.tsx:109-112 | a report is kept iff the term occurs, ignoring case, in its patient name or type; order is kept |
| Reports.EmptyTermKeepsAll | src/pages/Reports.tsx:109-112 | an empty term keeps every report |
| Reports.WithStatus | src/pages/Reports.tsx:114-116 | a tab list holds exactly the filtered reports with that status, in order |
| Reports.TabsPartition | src/pages/Reports.tsx:154-156 | the new, critical and reviewed tabs are disjoint and their counts add up to the filtered length |
| Patients.Filtered | src/pages/Patients.tsx:241-244 | a patient is kept iff the term occurs, ignoring case, in the name or the condition; order is kept |
| Patients.IdIsNotSearched | src/pages/Patients.tsx:273 | two patients that differ only in id are kept or dropped together, although the placeholder offers a search by ID |
| Patients.EmptyTermKeepsAll | src/pages/Patients.tsx:241-244 | an empty term keeps every patient, in order |
| Patients.TermCaseIgnored | src/pages/Patients.tsx:241-244 | terms that differ only in ASCII letter case give the same list |
| Patients.NoPatientsFound | src/pages/Patients.tsx:296-300 | "No patients found" is shown iff no patient matches the term |
| Appointments.Capitalize | src/pages/Appointments.tsx:49 | the first character is upper-cased and the rest kept, so the length is unchanged |
| Appointments.CapitalizeOnlyChangesCase | src/components/dashboard/AlertItem.tsx:28 | capitalising changes letter case only |
| Appointments.CapitalizeIdempotent | src/pages/Appointments.tsx:49 | capitalising twice is capitalising once |
| Appointments.StatusLabels | src/pages/Appointments.tsx:49 | the labels are "Upcoming", "Completed" and "Cancelled" |
| Appointments.ActionLabel | src/pages/Appointments.tsx:65 | the button reads "Join" iff the appointment is upcoming, otherwise "View details" |
| Appointments.TabActions | src/pages/Appointments.tsx:198-224 | in list view every item of the Upcoming tab offers "Join" and every item of the Completed tab offers "View details" |
| Appointments.TabContent | src/pages/Appointments.tsx:182-232 | the cancelled tab always shows its notice; the other tabs show the placeholder iff in calendar view; in list view, All shows every appointment and Upcoming and Completed show exactly the matching ones, in order |
| PatientProfile.FindIndex | src/pages/PatientProfile.tsx:167 | the position of the first patient with the route id, or the list length |
| PatientProfile.Lookup | src/pages/PatientProfile.tsx:167 | the first patient with the route id, otherwise the first patient |
| PatientProfile.LatestVitals | src/pages/PatientProfile.tsx:277 | the first min(3, n) vitals, in order |
| PatientProfile.Badges | src/pages/PatientProfile.tsx:214-216 | the "Welli Insured" badge is shown iff the provider is exactly "Welli Health" |
| PatientProfile.InsuranceCard | src/pages/PatientProfile.tsx:247-259 | the insurance card shows the provider, then the policy number, then at most one more line |
| PatientProfile.RecommendsLifeInsurance | src/pages/PatientProfile.tsx:253-259 | the card offers life insurance iff the patient has none, and the offer is then its third and last line |
| PatientProfile.EndDateText | src/pages/PatientProfile.tsx:378 | "Ongoing" for an ongoing prescription, otherwise "Until: " followed by the date |
| PatientProfile.EndDateTextReadsBack | src/pages/PatientProfile.tsx:378 | the end date can be read back from its text |
| PatientProfile.AssistantToggle.constructor | src/pages/PatientProfile.tsx:164 | the panel starts hidden |
| PatientProfile.AssistantToggle.Toggle | src/pages/PatientProfile.tsx:190 | the button flips the panel's visibility, so two presses restore it |
| PatientProfile.AssistantToggle.Close | src/pages/PatientProfile.tsx:314 | closing always hides the panel |
| Notifications.UnreadCount | src/pages/Notifications.tsx:76 | `unreadCount` is the number of unread notifications and at most the number of notifications |
| Notifications.UnreadFilterCounts | src/pages/Notifications.tsx:76 | the length of the unread filter is the number of unread notifications |
| Notifications.Background | src/pages/Notifications.tsx:58 | a notification is highlighted iff it is unread |
| Notifications.HighlightedMatchesCount | src/pages/Notifications.tsx:58 | the highlighted notifications are exactly as many as `unreadCount` |
| Notifications.ShippedUnread | src/pages/Notifications.tsx:14-47 | an instance of `UnreadCount` on the shipped mock data, for illustration: 2 |

## Left out

- The 1500 ms reply timer is not modelled as time. Sending and delivering are two separate steps, and the replies waiting form a queue. Timers of equal delay fire in the order they were started, so the queue is first-in first-out. Both handlers append through functional state updates, so a reply lands after everything logged before it fires.
- Neither chat handler checks the "analyzing" flag. A message can be sent while another waits, and the first reply to fire switches the indicator off even if more replies are still waiting. The model does the same: `Deliver` always clears it.
- Timers are not cancelled on unmount, so a reply could fire after the panel closes. That lifecycle is not modelled. Reopening the panel mounts a fresh session (`PatientAssistant.Open`).
- The prose of the canned replies is not modelled. Each template is a distinct constant, and the patient's name is a parameter of the panel's replies.
- Unicode case mapping is not modelled; `toLowerCase` and `toUpperCase` change ASCII letters only.
- `Date.now()` block ids: the id is a parameter of `Settings.ScheduleEditor.AddBlock`.
- Month navigation and locale date formatting on the appointments page are not modelled.
- Floating-point amounts and `toFixed(2)` are not modelled; amounts are integer cents.
- JSX layout, styling, icons, routing, toasts and the NotFound redirect are not modelled.
- The Dashboard page, the StatsCard, AppointmentCard and QuickActionCard components, and the status colours of the visit-details page are not modelled. They only pick labels.
- The AlertItem priority label uses the same capitalisation as the appointment status label, `Appointments.Capitalize`.
- "Mark all as read" and the other buttons have no handler, so they have no operation here: pressing them changes nothing.
- Only the fields the logic reads are modelled. Avatars, dates, descriptions and the remaining mock data are left out. The exceptions are the earnings amounts, the notification read flags, and the initial blocks, greetings and suggestions.
- PatientProfile.Lookup: requires a non-empty patient list. The page's list is a non-empty constant; with an empty list the page would read past its end.
- The AI assistant page and the patient panel have different keyword tables: the page matches single keywords, while the panel's first rule needs two. Each is modelled as written.
