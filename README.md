# Wellness centre client: a verified model of the booking layer

This project models the client side of a wellness-centre web application in
Dafny. Clients, specialists and administrators use it to book, review and
manage appointments, read a blog with threaded comments, and sign in. What
is covered is the logic those pages run in the browser:

- the booking form: how the availability answer becomes bookable instants, the
  submit checks, the request it builds and the resets of its change handlers;
- the appointment calendar: its loaded date range, how navigation moves it,
  and how slots and appointments become calendar events;
- the three-step booking wizard;
- the appointment status menu and save gate of the specialist's page, the
  client's cancellation, and the appointment card's buttons and fields;
- how appointment lists are split into tabs and into the dashboards' short
  lists;
- the threaded comment tree: insert under a parent, delete with subtree, count;
- the register, login, contact and comment forms and their validators;
- the route guard, the three area layouts, the header's links and the
  redirects after sign-in;
- the session (token storage, login, logout, user merge);
- the blog's query string, the category filters, and the specialist card's
  shortened texts.

Instants are integers (milliseconds) and "now" is a parameter. A date string
that does not parse is `None`. Calendar dates are civil dates. The server's
answers are inputs, and a remote call's success is a boolean parameter. Pure
code is modelled as functions with lemmas. Components and handlers that
update state step by step are modelled as classes whose methods state the
whole new state.

Shared modules: `Text` (JavaScript white space, `trim`, the e-mail and phone
patterns, `split`, `parseInt`, `Number`), `Domain` (ids, roles, statuses, the
appointment record), `Chronology` (a sort by instant, filter, take),
`CalendarDates` (civil dates and week starts), `SlotResponse` (the three
shapes of the availability answer) and `FormRules` (the error map that the
validators fill field by field).

## Model

| member | source | states |
|---|---|---|
| Text.Trim | src/components/Auth/RegisterForm.jsx:38-40 | The result is a contiguous piece of the input that neither starts nor ends with white space; everything removed on either side is white space. |
| Text.TrimStart | src/components/Auth/RegisterForm.jsx:38-40 | The result is a suffix of the input that does not start with white space, and only white space was removed. |
| Text.TrimEnd | src/components/Auth/RegisterForm.jsx:38-40 | The result is a prefix of the input that does not end with white space, and only white space was removed. |
| Text.BlankIffTrimEmpty | src/components/Auth/RegisterForm.jsx:38-39 | `trim()` leaves nothing exactly when every character is white space, so the blank test on characters is the source's empty-after-trim test. |
| Text.EmailPattern | src/components/Auth/RegisterForm.jsx:42 | `/\S+@\S+\.\S+/.test`: some '@' has a non-space character before it and, after a run of non-space characters, a '.' followed by a non-space character; its consequences are stated by EmailNeedsFiveCharacters, EmailPatternUnanchored and EmailExamples. |
| Text.EmailNeedsFiveCharacters | src/components/Auth/RegisterForm.jsx:42 | Any text the e-mail pattern accepts has at least five characters, contains '@' and '.', and is not blank. |
| Text.EmailPatternUnanchored | src/components/Auth/RegisterForm.jsx:42 | The pattern is not anchored: text around an accepted address is still accepted. |
| Text.EmailExamples | src/components/Auth/RegisterForm.jsx:42 | "a@b.c" and " x a@b.c " pass the pattern; "a@b" and "@b.c" fail it. |
| Text.PhonePattern | src/components/Auth/RegisterForm.jsx:45 | The anchored phone pattern: exactly "+380" and nine digits, or '0' and nine digits, with nothing around them; PhoneExamples checks it on accepted and rejected numbers. |
| Text.PhoneExamples | src/components/Auth/RegisterForm.jsx:45 | A ten-digit number starting with 0 and "+380" with nine digits pass; "380…" without '+' and a leading space fail (the pattern is anchored). |
| Text.ReplaceChar | src/components/Appointments/AppointmentCard.jsx:97 | Same length; every occurrence of the character is replaced and every other character is kept. |
| Text.Split | src/components/Specialists/SpecialistCard.jsx:101-104 | Splitting always yields at least one piece. |
| Text.SplitProperties | src/components/Specialists/SpecialistCard.jsx:101-104 | Joining the pieces with the separator gives back the text; there is one piece more than there are separators, and no piece contains the separator. |
| Text.SplitJoin | src/components/Specialists/SpecialistCard.jsx:101-104 | Joining the pieces with the separator gives back the text. |
| Text.SplitCount | src/components/Specialists/SpecialistCard.jsx:101-104 | There is one piece more than there are separators. |
| Text.SplitPiecesFree | src/components/Specialists/SpecialistCard.jsx:101-104 | No piece contains the separator. |
| Text.NatToString | src/pages/public/PostsPage.jsx:73 | A number's decimal form is non-empty and consists of digits. |
| Text.ParseInt | src/pages/public/PostsPage.jsx:20 | `parseInt` gives a number exactly when, after leading white space, the text starts with a digit or with a sign and a digit; a negative result comes only from a leading '-'. |
| Text.ParseIntOfNatToString | src/pages/public/PostsPage.jsx:20 | `parseInt` reads a number's decimal form back as the same number. |
| Text.ParseIntOfEmpty | src/pages/public/PostsPage.jsx:20 | `parseInt` of the empty string is NaN. |
| Text.ParseIntOfLetters | src/pages/public/PostsPage.jsx:20 | `parseInt` of text starting with letters is NaN. |
| Text.ParseIntOfDigitsThenLetters | src/pages/public/PostsPage.jsx:20 | `parseInt` reads leading digits and ignores what follows ("12abc" is 12). |
| Text.Number | src/pages/public/BookingPage.jsx:149-150 | On integer text `Number` is defined exactly for blank text (0) and for decimal digits with at most one leading sign, surrounded by white space; a negative value comes only from a leading '-'. |
| Text.NumberOfNatToString | src/components/Appointments/AppointmentForm.jsx:177-178 | `Number` reads a number's decimal form back as the same number. |
| Text.NumberOfSignedNatToString | src/pages/public/BookingPage.jsx:149-150 | `Number` reads a decimal form after '-' as the negated number and after '+' as the number. |
| Domain.AddMinutes | src/components/Appointments/AppointmentCalendar.jsx:106 | The result lies exactly `minutes` minutes after the instant, so a positive duration ends strictly later. |
| Domain.ParseRole | src/components/Layout/Header.jsx:55-63 | The parsed role names the same text back; only the three known names give a known role. |
| Domain.ParseRoleRoundTrip | src/components/Layout/Header.jsx:55-63 | A parsed role never names a known role as unknown, and such a canonical role is what its own name parses back to. |
| Domain.ParseStatus | src/pages/specialist/SpecialistAppointmentsPage.jsx:98-107 | The parsed status names the same text back; it is unknown exactly when the text is not one of the six status names. |
| Domain.ParseStatusRoundTrip | src/pages/specialist/SpecialistAppointmentsPage.jsx:98-107 | A parsed status never names a known status as unknown, and such a canonical status is what its own name parses back to. |
| Chronology.Sort | src/pages/client/ClientDashboardPage.jsx:32 | The result is sorted in the requested direction and is a permutation of the input. |
| Chronology.SortMembers | src/pages/client/MyBookingsPage.jsx:82 | Sorting keeps exactly the same appointments. |
| Chronology.Filter | src/pages/client/ClientDashboardPage.jsx:28-31 | The result holds exactly the input's appointments that satisfy the test, each kept one with exactly as many copies as the input has, and none of the others. |
| Chronology.FilterAppend | src/pages/client/MyBookingsPage.jsx:68-82 | Filtering a concatenation filters each part and keeps them in order, so the kept appointments stay in the input's order. |
| Chronology.Take | src/pages/client/ClientDashboardPage.jsx:33 | The result is the prefix of length min(n, length). |
| Chronology.TakeKeepsMembersAndOrder | src/pages/client/ClientDashboardPage.jsx:32-33 | The first n of a list are members of it, and stay sorted when it is. |
| Chronology.TakeOfSortedIsEarliest | src/pages/client/ClientDashboardPage.jsx:32-33 | Every appointment kept by "sort ascending, take n" is not later than any appointment left out. |
| CalendarDates.YearLength | src/components/Appointments/AppointmentCalendar.jsx:154-155 | A year has 366 days when it is a leap year and 365 otherwise. |
| CalendarDates.DaysInMonth | src/components/Appointments/AppointmentCalendar.jsx:154-155 | Every month has between 28 and 31 days. |
| CalendarDates.NextDay | src/components/Appointments/AppointmentCalendar.jsx:159 | The next day is a valid date whose day number is one more. |
| CalendarDates.PrevDay | src/components/Appointments/AppointmentCalendar.jsx:159 | The previous day is a valid date whose day number is one less. |
| CalendarDates.AddDays | src/components/Appointments/AppointmentCalendar.jsx:67 | Adding n days gives a valid date whose day number is n more, month and year roll-over included. |
| CalendarDates.StartOfWeek | src/components/Appointments/AppointmentCalendar.jsx:27 | The week start is a Monday, on or at most six days before the date, and exactly as many days before as the date's weekday. |
| CalendarDates.FirstOfMonth | src/components/Appointments/AppointmentCalendar.jsx:152 | The first of the date's month, day - 1 days earlier. |
| CalendarDates.DayNumberInjective | src/components/Appointments/AppointmentCalendar.jsx:163 | Two valid dates with the same day number are the same date. |
| SlotResponse.Lookup | src/components/Appointments/AppointmentForm.jsx:139-140 | A key is found exactly when some entry has it, and the value found is stored under that key. |
| SlotResponse.Flatten | src/components/Appointments/AppointmentForm.jsx:142 | The flattened list holds exactly the items of all entries. |
| SlotResponse.ValidOnly | src/components/Appointments/AppointmentForm.jsx:138 | The kept instants are exactly the parsed ones, and there are never more of them than items. |
| SlotResponse.ValidOnlyKeepsOrder | src/components/Appointments/AppointmentForm.jsx:138 | Two parsed items keep their relative order. |
| SlotResponse.ValidOnlyAppend | src/components/Appointments/AppointmentForm.jsx:142 | Filtering distributes over concatenation. |
| AppointmentForm.InsertUnique | src/components/Appointments/AppointmentForm.jsx:142-143 | Inserting into a strictly increasing list keeps it strictly increasing and adds exactly the new instant. |
| AppointmentForm.DedupeSort | src/components/Appointments/AppointmentForm.jsx:142-143 | The result is strictly increasing (so without duplicates) and holds exactly the input's instants. |
| AppointmentForm.NormaliseSlots | src/components/Appointments/AppointmentForm.jsx:137-146 | A flat array never yields more slots than it has items, the union of a keyed answer is strictly ascending, and any other answer yields nothing; each branch's exact contents are stated by the four lemmas below. |
| AppointmentForm.FlatListSlots | src/components/Appointments/AppointmentForm.jsx:137-138 | A flat array yields exactly its parsed instants, in the array's order. |
| AppointmentForm.PinnedSlots | src/components/Appointments/AppointmentForm.jsx:139-140 | With a pinned specialist, a keyed answer yields exactly the parsed instants of that specialist's array, and nothing when it is missing or not an array. |
| AppointmentForm.UnpinnedSlots | src/components/Appointments/AppointmentForm.jsx:141-143 | Without a pinned specialist, a keyed answer yields the union of all arrays' parsed instants, strictly ascending. |
| AppointmentForm.OtherShapeSlots | src/components/Appointments/AppointmentForm.jsx:144-146 | Any other answer yields no slots. |
| AppointmentForm.InitialState | src/components/Appointments/AppointmentForm.jsx:64-82 | The mount effect leaves no slots, and only an edited appointment can bring in an unparseable time. |
| AppointmentForm.FirstFailedCheck | src/components/Appointments/AppointmentForm.jsx:164-174 | When every check passes a service and a valid time are chosen; the past-time and unavailable-time errors arise only in the plain client form, for a past time or one missing from the slots. |
| AppointmentForm.ChecksPassIff | src/components/Appointments/AppointmentForm.jsx:164-174 | The submit checks all pass exactly when the admin dialog knows a client, a service and a valid time are chosen, and in the plain client form the time is not past and is a listed slot when there are slots. |
| AppointmentForm.StepAndFixedModesSkipTimeChecks | src/components/Appointments/AppointmentForm.jsx:168-174 | Outside the plain client form, the past-time and slot checks never fire. |
| AppointmentForm.BuildFormData | src/components/Appointments/AppointmentForm.jsx:176-186 | The draft carries the chosen service, specialist and time; it carries admin fields exactly in the admin dialog, with a client exactly when one is known. |
| AppointmentForm.RequestFor | src/components/Appointments/AppointmentForm.jsx:200-220 | Every request carries the draft's service and time, and a specialist only when it is the draft's. |
| AppointmentForm.AdminRequest | src/components/Appointments/AppointmentForm.jsx:204-215 | In the admin dialog, an appointment with an id is updated with the status and admin notes; otherwise one is created when the client is known, and nothing is sent when it is not. |
| AppointmentForm.AdminClient | src/components/Appointments/AppointmentForm.jsx:176-186 | The client sent by the admin dialog is the chosen client, else the preset user id, else the edited appointment's client; it exists exactly when one of them does. |
| AppointmentForm.AdminCreateAlwaysHasClient | src/components/Appointments/AppointmentForm.jsx:208-216 | Once the checks pass, a request always exists, and an admin request always names a client, so the "client not chosen" exception cannot happen. |
| AppointmentForm.ClientRequestHasNoAdminFields | src/components/Appointments/AppointmentForm.jsx:204-218 | Outside the admin form the request is a create with service, specialist, time, notes and the prop's user, with no status or admin notes. |
| AppointmentForm.StepDraftHasNoAdminFields | src/components/Appointments/AppointmentForm.jsx:190-195 | A step-mode draft has no user, status or admin notes. |
| AppointmentForm.Form.constructor | src/components/Appointments/AppointmentForm.jsx:43-62 | Mounting sets the fields to the mount effect's state with no error. |
| AppointmentForm.Form.ChangeService | src/components/Appointments/AppointmentForm.jsx:277 | The service changes; in client and step modes the specialist, time and slots are cleared; nothing else changes. |
| AppointmentForm.Form.ChangeSpecialist | src/components/Appointments/AppointmentForm.jsx:288 | The specialist changes; in client and step modes the time and slots are cleared; nothing else changes. |
| AppointmentForm.Form.ChangeDateTime | src/components/Appointments/AppointmentForm.jsx:300 | Only the picked time changes. |
| AppointmentForm.Form.FetchSlots | src/components/Appointments/AppointmentForm.jsx:128-151 | Without a service or a valid date the list is cleared and nothing is requested; otherwise the list becomes the normalised answer, or empty with an error when the request fails. |
| AppointmentForm.Form.WantsSlots | src/components/Appointments/AppointmentForm.jsx:154 | The effect's condition: a valid picked time, no fixed time, a client or wizard form, and a chosen service; SlotEffect fetches exactly when it holds. |
| AppointmentForm.Form.SlotEffect | src/components/Appointments/AppointmentForm.jsx:153-158 | The date-picker effect requests slots exactly when a valid time is picked, no time is fixed, the form is a client or wizard form and a service is chosen; then the list becomes the normalised answer (or empty with an error), otherwise nothing changes. |
| AppointmentForm.Form.Submit | src/components/Appointments/AppointmentForm.jsx:160-233 | The first failing check is reported and nothing changes; step mode hands over the draft; otherwise the request is sent, and a successful create resets the booking fields. |
| AppointmentCalendar.InitialRange | src/components/Appointments/AppointmentCalendar.jsx:64-69 | The range starts on the Monday on or before the preselected date (or today) and spans 42 days in month view, 7 otherwise. |
| AppointmentCalendar.NavigateRangeAsWritten | src/components/Appointments/AppointmentCalendar.jsx:145-166 | The range navigation computes as written is well formed (its start is not after its end). |
| AppointmentCalendar.NavigateRange | src/components/Appointments/AppointmentCalendar.jsx:145-166 | The corrected navigation range is well formed. |
| AppointmentCalendar.WeekNavigation | src/components/Appointments/AppointmentCalendar.jsx:160-161 | Week navigation is as written: Monday to Sunday of the navigated date's week, which it covers. |
| AppointmentCalendar.LastOfMonth | src/components/Appointments/AppointmentCalendar.jsx:154-155 | The last day of the date's month, month length - 1 days after its first. |
| AppointmentCalendar.MonthNavigationCoversMonth | src/components/Appointments/AppointmentCalendar.jsx:151-159 | The corrected month range starts on a Monday, spans 42 days and covers every day of the navigated month. |
| AppointmentCalendar.DayNavigation | src/components/Appointments/AppointmentCalendar.jsx:162-164 | The corrected day range covers the navigated day and no other. |
| AppointmentCalendar.MonthNavigationAsWrittenMissesMonthEnd | src/components/Appointments/AppointmentCalendar.jsx:149-159 | When the week of the navigated date starts in the previous month, the range as written ends at least 14 days before the month's last day, which the corrected range covers. |
| AppointmentCalendar.DayNavigationAsWrittenMissesDay | src/components/Appointments/AppointmentCalendar.jsx:162-164 | For any day but a Monday, the day range as written does not contain the day; the corrected one does. |
| AppointmentCalendar.SlotEvents | src/components/Appointments/AppointmentCalendar.jsx:95-114 | One slot event per parsed start, in order, each lasting the service duration; unparsed items are dropped. |
| AppointmentCalendar.AppointmentEvents | src/components/Appointments/AppointmentCalendar.jsx:118-130 | One event per appointment with a valid time, in the appointments' order with repeats kept: the i-th event starts at the i-th such appointment's instant, lasts its duration and carries it. |
| AppointmentCalendar.Timed | src/components/Appointments/AppointmentCalendar.jsx:120-121 | The appointments kept are exactly those with a valid time. |
| AppointmentCalendar.TimedIsFilter | src/components/Appointments/AppointmentCalendar.jsx:118-130 | The appointments with a valid time are the appointments filter with that test, in order and with repeats. |
| AppointmentCalendar.AppointmentEventsMembers | src/components/Appointments/AppointmentCalendar.jsx:118-130 | Every event is an input appointment's, from its instant and lasting its duration, and every appointment with a valid time has its event. |
| AppointmentCalendar.SelectSlot | src/components/Appointments/AppointmentCalendar.jsx:168-181 | A slot is selected exactly for a client with a callback, a service and a duration, at a start not in the past; the end is start + duration. |
| AppointmentCalendar.SelectEvent | src/components/Appointments/AppointmentCalendar.jsx:183-191 | Appointment events go to the event callback exactly when there is one; a slot event with a slot callback is picked exactly when a client with a service and a non-zero duration clicks one that has not started, and the pick ends the service duration later; nothing else is ever picked. |
| AppointmentCalendar.ClientBlocked | src/components/Appointments/AppointmentCalendar.jsx:75-79 | The loading guard: a client without a service or a duration is held back; StaffNeverBlocked and Calendar.Fetch state its effect. |
| AppointmentCalendar.StaffNeverBlocked | src/components/Appointments/AppointmentCalendar.jsx:75-79 | The missing-service guard never blocks an admin or a specialist. |
| AppointmentCalendar.Calendar.constructor | src/components/Appointments/AppointmentCalendar.jsx:64-70 | The calendar starts at the preselected date (or today) with the initial range and no events. |
| AppointmentCalendar.Calendar.Navigate | src/components/Appointments/AppointmentCalendar.jsx:145-166 | Navigation moves the current date and sets the range navigation is meant to load (the corrected range of the Findings table). |
| AppointmentCalendar.Calendar.Fetch | src/components/Appointments/AppointmentCalendar.jsx:73-139 | A blocked client gets no events and an error with no request; clients query slots, staff query appointments, and the events become the projected answer, or stay with an error on failure. |
| BookingPage.SeedClientData | src/pages/public/BookingPage.jsx:46-51 | Contact data come from the user only when signed in with a user; otherwise they are empty. |
| BookingPage.InitialDraft | src/pages/public/BookingPage.jsx:36-52 | The draft takes service and specialist from the address (or ''), no time, no notes, and the seeded contact data. |
| BookingPage.IdString | src/pages/public/BookingPage.jsx:110-111 | An id is written as the empty string exactly when there is none. |
| BookingPage.IdFromString | src/pages/public/BookingPage.jsx:180-181 | A read id is the text's `Number` value, and every positive `Number` value is read. |
| BookingPage.IdStringRoundTrip | src/pages/public/BookingPage.jsx:110-111 | Writing an id and reading it back gives the same id. |
| BookingPage.AfterStep0 | src/pages/public/BookingPage.jsx:106-116 | The first step's draft replaces service, specialist, time and notes, which read back as chosen, and keeps the contact data. |
| BookingPage.Step0Props | src/pages/public/BookingPage.jsx:178-185 | Step 0 mounts the form in step mode with the draft's service, specialist and time. |
| BookingPage.ReseedKeepsChoices | src/pages/public/BookingPage.jsx:178-185 | Going back to step 0 mounts the form with the service, specialist and time chosen before. |
| BookingPage.ContactCheckPassesIff | src/pages/public/BookingPage.jsx:128-139 | The contact step passes exactly for a signed-in user, or a guest with a non-blank first name and an e-mail matching the pattern. |
| BookingPage.ContactCheck | src/pages/public/BookingPage.jsx:128-139 | A signed-in user always passes; a guest missing the first name or e-mail gets that problem, and a malformed-e-mail problem only for a non-blank e-mail that fails the pattern. |
| BookingPage.NumberValue | src/pages/public/BookingPage.jsx:149-150 | `Number` gives a number exactly where it is defined, NaN elsewhere. |
| BookingPage.FinalPayload | src/pages/public/BookingPage.jsx:141-155 | There is a request exactly when service and time are set; it carries the time and notes, and a null specialist exactly when none was chosen. |
| BookingPage.FinalPayloadCarriesStep0Choices | src/pages/public/BookingPage.jsx:148-155 | After the first step, the final request carries that step's service, specialist, time and notes as numbers. |
| BookingPage.BookingWizard.constructor | src/pages/public/BookingPage.jsx:36-52 | The wizard starts at step 0 with the initial draft. |
| BookingPage.BookingWizard.UserChanged | src/pages/public/BookingPage.jsx:85-103 | A signed-in user replaces only the contact data; otherwise nothing changes. |
| BookingPage.BookingWizard.Step0Success | src/pages/public/BookingPage.jsx:106-116 | The draft takes the first step's choices and the step becomes 1. |
| BookingPage.BookingWizard.ChangeContact | src/pages/public/BookingPage.jsx:118-126 | Only the edited contact field changes. |
| BookingPage.BookingWizard.Step1Submit | src/pages/public/BookingPage.jsx:128-139 | The step becomes 2 exactly when the contact check passes; the draft never changes. |
| BookingPage.BookingWizard.FinalSubmit | src/pages/public/BookingPage.jsx:141-170 | Nothing is sent without service or time; a success moves to the done step (3); a failure leaves the step where it was. |
| BookingPage.BookingWizard.Back | src/pages/public/BookingPage.jsx:172 | The step goes down by one and never below 0; the draft is kept. |
| SpecialistAppointments.OfferedFromMembers | src/pages/specialist/SpecialistAppointmentsPage.jsx:98-107 | The offered statuses are exactly the listed ones that pass both filters. |
| SpecialistAppointments.StatusMenu | src/pages/specialist/SpecialistAppointmentsPage.jsx:98-152 | The menu only ever offers the current status, confirmed, completed or no-show. |
| SpecialistAppointments.StatusMenuByStatus | src/pages/specialist/SpecialistAppointmentsPage.jsx:98-152 | Pending offers confirmed and pending; confirmed offers confirmed, completed and no-show; any other known status offers only itself; an unknown one offers nothing. |
| SpecialistAppointments.SavableMoves | src/pages/specialist/SpecialistAppointmentsPage.jsx:148-173 | Among enabled menu items, save is enabled exactly for pending to confirmed and confirmed to completed or no-show. |
| SpecialistAppointments.ItemDisabled | src/pages/specialist/SpecialistAppointmentsPage.jsx:154 | A menu item is disabled when it is the current status and not completed, no-show or confirmed; SavableMoves relates it to the save gate. |
| SpecialistAppointments.SaveEnabled | src/pages/specialist/SpecialistAppointmentsPage.jsx:173 | Save is enabled when a status is chosen and it differs from the current one; SavableMoves states which moves that allows. |
| SpecialistAppointments.NotesUpdate | src/pages/specialist/SpecialistAppointmentsPage.jsx:83-85 | The notes are left out exactly when blank and unchanged, cleared (null) when blank and changed, and otherwise sent trimmed. |
| SpecialistAppointments.EditDialog.constructor | src/pages/specialist/SpecialistAppointmentsPage.jsx:48-53 | The dialog starts closed with the refresh counter at 0. |
| SpecialistAppointments.EditDialog.Select | src/pages/specialist/SpecialistAppointmentsPage.jsx:61-66 | Opening fills the status and notes from the appointment. |
| SpecialistAppointments.EditDialog.Close | src/pages/specialist/SpecialistAppointmentsPage.jsx:68-73 | Closing clears the selection, status and notes. |
| SpecialistAppointments.EditDialog.ChooseStatus | src/pages/specialist/SpecialistAppointmentsPage.jsx:143 | Only the chosen status changes. |
| SpecialistAppointments.EditDialog.EditNotes | src/pages/specialist/SpecialistAppointmentsPage.jsx:162 | Only the notes change. |
| SpecialistAppointments.EditDialog.Save | src/pages/specialist/SpecialistAppointmentsPage.jsx:75-96 | Nothing is saved without a selection or a status; the update carries the status and the notes update; a success closes the dialog and reloads the calendar once; a failure changes nothing. |
| AppointmentCard.StatusColor | src/components/Appointments/AppointmentCard.jsx:27-37 | `getStatusChipColor`: 'success' for confirmed, 'warning' for pending, 'error' for a cancellation, 'primary' for completed, 'default' for no-show and unknown statuses; StatusColorClasses states that each colour belongs to exactly those statuses. |
| AppointmentCard.StatusColorClasses | src/components/Appointments/AppointmentCard.jsx:27-37 | Each colour belongs to exactly its statuses: confirmed, pending, the two cancellations, completed, and no-show or unknown. |
| AppointmentCard.StatusLabel | src/components/Appointments/AppointmentCard.jsx:97 | The label has no underscore and the same length as the status name; an empty status shows the unknown label. |
| AppointmentCard.KnownStatusLabelRoundTrip | src/components/Appointments/AppointmentCard.jsx:97 | A known status's label turns back into its name when spaces become underscores, and that name parses back to the status. |
| AppointmentCard.SpecialistRef | src/components/Appointments/AppointmentCard.jsx:72-73 | A listed appointment's specialist is an id or null, never undefined. |
| AppointmentCard.CanEdit | src/components/Appointments/AppointmentCard.jsx:72-73 | `canEdit`: an admin, or a specialist whose profile id equals the appointment's specialist id; WhoCanEdit states who that admits. |
| AppointmentCard.CanClientCancel | src/components/Appointments/AppointmentCard.jsx:75 | `canClientCancel`: a client, and the status is pending or confirmed; CardVisibility states where the button shows. |
| AppointmentCard.WhoCanEdit | src/components/Appointments/AppointmentCard.jsx:72-73 | Clients never edit; a specialist with a known profile id edits exactly the appointments assigned to it, and without one edits nothing. |
| AppointmentCard.Card | src/components/Appointments/AppointmentCard.jsx:51-161 | A null appointment renders nothing; otherwise the chip shows the status label and colour. |
| AppointmentCard.CardVisibility | src/components/Appointments/AppointmentCard.jsx:121-161 | Only staff see the client's name and admin notes; clients never edit, staff never cancel; the cancel button appears exactly for a client on a pending or confirmed appointment with a handler. |
| MyBookings.TabList | src/pages/client/MyBookingsPage.jsx:68-82 | A tab lists the appointments that belong on it, each with exactly as many copies as the input has, sorted in its direction. |
| MyBookings.TabOrder | src/pages/client/MyBookingsPage.jsx:82 | The active tab sorts oldest first; the others newest first. |
| MyBookings.InTab | src/pages/client/MyBookingsPage.jsx:68-80 | The tab filter: upcoming open bookings, past or done ones, and cancelled ones; TabsPartition proves a known booking with a valid time lies on exactly one tab. |
| MyBookings.TabsPartition | src/pages/client/MyBookingsPage.jsx:68-80 | An appointment with a known status and a valid time belongs on exactly one tab. |
| MyBookings.UnreadableOpenAppointmentIsOnNoTab | src/pages/client/MyBookingsPage.jsx:69-76 | A pending or confirmed appointment whose time does not parse is on no tab. |
| MyBookings.TabListsPartition | src/pages/client/MyBookingsPage.jsx:68-82 | Such an appointment appears in exactly one of the three tab lists. |
| MyBookings.BookingsPage.constructor | src/pages/client/MyBookingsPage.jsx:16-22 | The page starts on the active tab with no appointments and no dialog. |
| MyBookings.BookingsPage.Loaded | src/pages/client/MyBookingsPage.jsx:29-30 | A null answer is stored as an empty list. |
| MyBookings.BookingsPage.ChooseTab | src/pages/client/MyBookingsPage.jsx:91 | Only the tab changes. |
| MyBookings.BookingsPage.OpenCancelDialog | src/pages/client/MyBookingsPage.jsx:59-66 | The dialog opens for a pending or confirmed appointment; any other status only warns. |
| MyBookings.BookingsPage.CloseDialog | src/pages/client/MyBookingsPage.jsx:121 | The dialog closes. |
| MyBookings.BookingsPage.CancelAppointment | src/pages/client/MyBookingsPage.jsx:42-57 | Without a selection nothing is sent; otherwise the selected id is sent with "cancelled by client", the list reloads on success, and the selection and dialog are cleared either way. |
| ClientDashboard.UpcomingSorted | src/pages/client/ClientDashboardPage.jsx:27-32 | Exactly the pending or confirmed appointments not before now, each with exactly the input's number of copies, ascending; a null answer gives none. |
| ClientDashboard.Upcoming | src/pages/client/ClientDashboardPage.jsx:27-31 | An appointment counts as upcoming when it is not before now and is pending or confirmed. |
| ClientDashboard.Shown | src/pages/client/ClientDashboardPage.jsx:27-33 | At most three, the head of the upcoming list. |
| ClientDashboard.ShownProperties | src/pages/client/ClientDashboardPage.jsx:27-33 | The shown appointments are upcoming ones from the answer, ascending, min(3, count) of them, none for a null answer. |
| ClientDashboard.ShownAreEarliest | src/pages/client/ClientDashboardPage.jsx:32-33 | No upcoming appointment left out is earlier than one shown. |
| SpecialistDashboard.DayEnd | src/pages/specialist/SpecialistDashboardPage.jsx:30-32 | The day's end is one millisecond short of a day after its midnight. |
| SpecialistDashboard.TodayList | src/pages/specialist/SpecialistDashboardPage.jsx:34-39 | Exactly today's pending or confirmed appointments, each with exactly the input's number of copies, ascending. |
| SpecialistDashboard.LaterSorted | src/pages/specialist/SpecialistDashboardPage.jsx:41-46 | Exactly the pending or confirmed appointments after today, each with exactly the input's number of copies, ascending. |
| SpecialistDashboard.Today | src/pages/specialist/SpecialistDashboardPage.jsx:34-39 | Today means from midnight to the last millisecond of the day, pending or confirmed. |
| SpecialistDashboard.AfterToday | src/pages/specialist/SpecialistDashboardPage.jsx:41-44 | Later means after the last millisecond of today, pending or confirmed. |
| SpecialistDashboard.UpcomingList | src/pages/specialist/SpecialistDashboardPage.jsx:41-47 | At most three, the head of the later list. |
| SpecialistDashboard.ListsDisjointAndOpen | src/pages/specialist/SpecialistDashboardPage.jsx:34-47 | No appointment is in both lists, and both hold only pending or confirmed ones; upcoming ones start after today's end. |
| SpecialistDashboard.UpcomingAreEarliest | src/pages/specialist/SpecialistDashboardPage.jsx:46-47 | No later appointment left out is earlier than one shown. |
| SpecialistDashboard.Dashboard.constructor | src/pages/specialist/SpecialistDashboardPage.jsx:16-17 | Both lists start empty. |
| SpecialistDashboard.Dashboard.Load | src/pages/specialist/SpecialistDashboardPage.jsx:21-60 | Only a specialist fetches; the lists become today's and the upcoming ones of the answer (a null answer as empty). |
| CommentSection.Insert | src/components/Posts/CommentSection.jsx:279-292 | A top-level comment is appended to the list; a reply keeps the number of top-level comments. |
| CommentSection.InsertUnder | src/components/Posts/CommentSection.jsx:283-291 | Inserting a reply keeps every top-level comment in its place. |
| CommentSection.InsertUnderTopLevelParent | src/components/Posts/CommentSection.jsx:280-285 | A reply to a top-level comment is appended to its replies. |
| CommentSection.InsertUnderMissingParent | src/components/Posts/CommentSection.jsx:283-291 | A reply whose parent is nowhere in the tree leaves the tree unchanged. |
| CommentSection.InsertUnderSize | src/components/Posts/CommentSection.jsx:283-291 | The tree grows by the new subtree once per topmost comment carrying the parent id. |
| CommentSection.InsertCount | src/components/Posts/CommentSection.jsx:279-292 | With a top-level comment or a parent present exactly once, the count grows by the new subtree's size. |
| CommentSection.Remove | src/components/Posts/CommentSection.jsx:318-325 | Removing never lengthens the top-level list; RemoveTopIds and RemoveSize state which comments survive. |
| CommentSection.RemoveEffect | src/components/Posts/CommentSection.jsx:318-325 | After removal the id occurs nowhere and the count does not grow. |
| CommentSection.RemoveSize | src/components/Posts/CommentSection.jsx:318-325 | The comments left plus those taken away (each topmost match with all its replies) are the comments there were, and at least one goes per topmost match. |
| CommentSection.RemoveTopIds | src/components/Posts/CommentSection.jsx:318-325 | The top-level ids after removal are the top-level ids before it with the removed id dropped, in their original order. |
| CommentSection.Without | src/components/Posts/CommentSection.jsx:320 | A list of ids with one id dropped holds exactly the other ids. |
| CommentSection.RemoveAbsent | src/components/Posts/CommentSection.jsx:318-325 | Removing an id that occurs nowhere changes nothing. |
| CommentSection.RemoveIdempotent | src/components/Posts/CommentSection.jsx:318-325 | Removing twice is removing once. |
| CommentSection.RemoveUndoesInsert | src/components/Posts/CommentSection.jsx:279-325 | Removing a freshly inserted comment with a new id restores the tree exactly. |
| CommentSection.CountTotal | src/components/Posts/CommentSection.jsx:337-346 | The counting loop returns the number of comments at all depths. |
| CommentSection.AuthorName | src/components/Posts/CommentSection.jsx:39-41 | The account's trimmed full name, else the guest name, else "Anonymous". |
| CommentSection.DeleteButtonOnlyForAdmins | src/components/Posts/CommentSection.jsx:50 | The delete button is shown exactly to admins, although authors may also delete. |
| CommentSection.CanDelete | src/components/Posts/CommentSection.jsx:50 | `canDelete`: an admin, or the signed-in author of the comment; DeleteButtonOnlyForAdmins states what the section makes of it. |
| CommentSection.DeleteButtonShown | src/components/Posts/CommentSection.jsx:381 | The delete handler is passed to a comment only for an admin; DeleteButtonOnlyForAdmins states it. |
| CommentSection.FormPlacement | src/components/Posts/CommentSection.jsx:355-395 | The top-level form shows exactly when no reply is open; a reply form sits under the comment replied to, and none shows when that comment is not listed. |
| CommentSection.ReplyReport | src/components/Posts/CommentSection.jsx:52-57 | Opening reports the comment's id and "@Author "; closing reports null and "". |
| CommentSection.FormCheckPassesIff | src/components/Posts/CommentSection.jsx:143-156 | The form passes exactly with non-blank text and, for a guest, a non-blank name and an e-mail matching the pattern. |
| CommentSection.FormCheck | src/components/Posts/CommentSection.jsx:143-156 | The checks never report a server refusal; passing needs non-blank text, and for a signed-in user non-blank text is all they need. |
| CommentSection.Payload | src/components/Posts/CommentSection.jsx:161-168 | The request carries the text and parent, and the guest's name and e-mail exactly when not signed in. |
| CommentSection.CommentForm.constructor | src/components/Posts/CommentSection.jsx:135-141 | A reply form starts with the "@Author " text, a top-level one empty. |
| CommentSection.CommentForm.Submit | src/components/Posts/CommentSection.jsx:143-187 | The first failing check is reported; otherwise the payload is sent, a success clears the fields and closes a reply form, a failure keeps them. |
| CommentSection.Section.constructor | src/components/Posts/CommentSection.jsx:267-276 | The section starts with the given comments, no reply open and no dialog. |
| CommentSection.Section.CommentAdded | src/components/Posts/CommentSection.jsx:294-297 | The comment is inserted into the tree and the reply closes. |
| CommentSection.Section.ReplyClick | src/components/Posts/CommentSection.jsx:299-301 | The reply target and its text are set. |
| CommentSection.Section.CancelReply | src/components/Posts/CommentSection.jsx:303-305 | The reply target and its text are cleared. |
| CommentSection.Section.OpenDeleteDialog | src/components/Posts/CommentSection.jsx:307-310 | The comment to delete is remembered and the dialog opens. |
| CommentSection.Section.ConfirmDelete | src/components/Posts/CommentSection.jsx:312-335 | A successful delete removes that comment with its subtree; otherwise the tree stays; the dialog closes whenever a comment was chosen. |
| CommentSection.Section.Count | src/components/Posts/CommentSection.jsx:351 | The heading's count is the number of comments at all depths. |
| CommentSection.CommentItem.constructor | src/components/Posts/CommentSection.jsx:37 | A comment starts with its reply form closed. |
| CommentSection.CommentItem.ToggleReply | src/components/Posts/CommentSection.jsx:52-57 | The reply form flips and reports as the reply report says. |
| FormRules.EmailError | src/components/Auth/RegisterForm.jsx:40-44 | An address passes exactly when it matches the pattern; it is "required" exactly when blank, and otherwise badly formed. |
| FormRules.BlankFailsEmail | src/components/Auth/RegisterForm.jsx:40-44 | A blank address never matches the pattern. |
| FormRules.PasswordError | src/components/Auth/RegisterForm.jsx:48-52 | A password passes exactly with at least 6 characters; it is "required" exactly when empty, and otherwise too short. |
| FormRules.Note | src/components/Auth/RegisterForm.jsx:38 | A failed check adds its field's error to the map; a passed one leaves the map as it was. |
| FormRules.NoteAllRecords | src/components/Auth/RegisterForm.jsx:36-60 | Running the checks in order records exactly the failed fields, each with its own error, on top of the earlier map. |
| RegisterForm.EveryFieldChecked | src/components/Auth/RegisterForm.jsx:38-57 | Every field is among those checked. |
| RegisterForm.RecordedErrors | src/components/Auth/RegisterForm.jsx:36-60 | The error map holds exactly the failing fields, each with its own error. |
| RegisterForm.FieldCheck | src/components/Auth/RegisterForm.jsx:38-55 | Each field's own rule: names required, e-mail required then matching, phone optional but well-formed, password required and at least 6 characters, confirmation required and equal. |
| RegisterForm.Checks | src/components/Auth/RegisterForm.jsx:36-60 | All field rules applied to the same values. |
| RegisterForm.AllPassIff | src/components/Auth/RegisterForm.jsx:36-60 | The form is valid exactly with non-blank names, a matching e-mail, an empty or matching phone, a password of at least 6 characters and an equal confirmation. |
| RegisterForm.BlankPhoneIsRejected | src/components/Auth/RegisterForm.jsx:45 | A phone of only white space is not empty, so it must match and fails. |
| RegisterForm.PayloadOf | src/components/Auth/RegisterForm.jsx:70-77 | Every sign-up asks for a client account and sends an empty phone as null; the other fields are sent as typed. |
| RegisterForm.NextAfterSignUp | src/components/Auth/RegisterForm.jsx:83-88 | A callback wins; otherwise a specialist goes to the profile page and anyone else to the client dashboard. |
| RegisterForm.Form.constructor | src/components/Auth/RegisterForm.jsx:24-34 | All fields start empty with no errors. |
| RegisterForm.Form.Edit | src/components/Auth/RegisterForm.jsx:126-199 | Only the edited field changes. |
| RegisterForm.Form.Validate | src/components/Auth/RegisterForm.jsx:36-60 | The stored errors are exactly the failing fields'; the form is valid exactly when there are none, which is exactly when all rules pass. |
| RegisterForm.Form.Submit | src/components/Auth/RegisterForm.jsx:62-95 | An invalid form sends nothing; a valid one sends the payload, and a refusal sets the server error. |
| LoginForm.RecordedErrors | src/components/Auth/LoginForm.jsx:31-45 | The error map holds exactly the failing fields, each with its own error. |
| LoginForm.FieldCheck | src/components/Auth/LoginForm.jsx:33-42 | The e-mail is required and must match; the password is required and must have at least 6 characters. |
| LoginForm.Checks | src/components/Auth/LoginForm.jsx:31-45 | Both field rules applied to the same values. |
| LoginForm.AllPassIff | src/components/Auth/LoginForm.jsx:31-45 | Both fields pass exactly with a matching e-mail and a password of at least 6 characters. |
| LoginForm.AfterLoginPath | src/components/Auth/LoginForm.jsx:62-65 | Admins and specialists go to their dashboards; anyone else goes back to where they came from, or to the client dashboard; never to the sign-in or sign-up page. |
| LoginForm.ReturnPath | src/components/Auth/LoginForm.jsx:62 | The saved page, or the home page when none was saved. |
| LoginForm.ClientReturnsToOrigin | src/components/Auth/LoginForm.jsx:65 | A client who came from some page other than sign-in or sign-up returns to it. |
| LoginForm.Form.constructor | src/components/Auth/LoginForm.jsx:25-29 | Both fields start empty with no errors. |
| LoginForm.Form.EditEmail | src/components/Auth/LoginForm.jsx:103 | Only the e-mail changes. |
| LoginForm.Form.EditPassword | src/components/Auth/LoginForm.jsx:119 | Only the password changes. |
| LoginForm.Form.Validate | src/components/Auth/LoginForm.jsx:31-45 | The stored errors are exactly the failing fields'; valid exactly when there are none, exactly when both rules pass. |
| LoginForm.Form.Submit | src/components/Auth/LoginForm.jsx:47-73 | An invalid form sends nothing; a refusal sets the server error; a signed-in user goes to the callback or to the after-login path. |
| ContactPage.RecordedErrors | src/pages/public/ContactPage.jsx:30-41 | The error map holds exactly the failing fields, each with its own error. |
| ContactPage.FieldCheck | src/pages/public/ContactPage.jsx:32-38 | Name and message required, e-mail required then matching, phone blank or well-formed. |
| ContactPage.Checks | src/pages/public/ContactPage.jsx:30-41 | All field rules applied to the same message. |
| ContactPage.AllPassIff | src/pages/public/ContactPage.jsx:30-41 | Valid exactly with a non-blank name and message, a matching e-mail and a blank or matching phone; the subject is never checked. |
| ContactPage.Form.constructor | src/pages/public/ContactPage.jsx:17-21 | The form starts empty, without errors or notice. |
| ContactPage.Form.Change | src/pages/public/ContactPage.jsx:23-28 | Only the edited field changes, and only its error is cleared. |
| ContactPage.Form.Validate | src/pages/public/ContactPage.jsx:30-41 | The stored errors are exactly the failing fields'; valid exactly when there are none, exactly when all rules pass. |
| ContactPage.Form.Submit | src/pages/public/ContactPage.jsx:43-62 | An invalid form sends nothing; a sent message resets all fields on success and keeps them on failure, with the matching notice. |
| AuthContext.Stored | src/contexts/AuthContext.jsx:15-22 | Storage keeps a token exactly when it is a non-empty string. |
| AuthContext.Merge | src/contexts/AuthContext.jsx:70-73 | The merged user has every new field's value, keeps every other old field, and has nothing else. |
| AuthContext.MergeIdempotent | src/contexts/AuthContext.jsx:72 | Merging the same fields twice is merging them once. |
| AuthContext.MergeOfEmpty | src/contexts/AuthContext.jsx:72 | Merging no fields leaves the user as it was. |
| AuthContext.Session.constructor | src/contexts/AuthContext.jsx:9-12 | A session starts loading, signed out, with the stored token. |
| AuthContext.Session.SetToken | src/contexts/AuthContext.jsx:15-22 | The token is set and stored, or removed from storage when empty or null. |
| AuthContext.Session.CheckLoggedIn | src/contexts/AuthContext.jsx:25-46 | Loading ends; with no stored token nothing else changes; with one, a profile signs the user in and a failure clears the session. |
| AuthContext.Session.Login | src/contexts/AuthContext.jsx:48-60 | Data with a token store it and sign in the user without the token field; data without one change nothing. |
| AuthContext.CarriesToken | src/contexts/AuthContext.jsx:50 | Sign-in data count only when present and holding a token. |
| AuthContext.Session.Logout | src/contexts/AuthContext.jsx:62-68 | Token, storage, user and the signed-in flag are all cleared. |
| AuthContext.Session.UpdateUser | src/contexts/AuthContext.jsx:70-73 | The user becomes the old user merged with the new fields. |
| RouteGuards.ProtectedRoute | src/routes/ProtectedRoute.jsx:12-38 | A missing or loading session shows the spinner; a signed-out visitor goes to sign-in with the location; a refused role goes to the unauthorized page. |
| RouteGuards.ProtectedRouteAdmits | src/routes/ProtectedRoute.jsx:12-38 | The page renders exactly for a settled signed-in session when no roles are listed, or when the user's non-empty role is listed. |
| RouteGuards.EmptyRoleNeverAdmitted | src/routes/ProtectedRoute.jsx:27-33 | A user without a role is refused even when the empty role is listed. |
| RouteGuards.LayoutGate | src/components/Layout/ClientLayout.jsx:15-32 | Spinner exactly while loading or without a session; sign-in with the location; home for a role outside the set; renders exactly for a signed-in user whose role is in the set. |
| RouteGuards.ClientLayout | src/components/Layout/ClientLayout.jsx:35-52 | The client area renders only for clients, specialists and admins. |
| RouteGuards.SpecialistLayout | src/components/Layout/SpecialistLayout.jsx:73-85 | The specialist area renders only for specialists and admins. |
| RouteGuards.ClientIsKeptOutOfSpecialistArea | src/components/Layout/SpecialistLayout.jsx:82-85 | A signed-in client is sent home from the specialist area but admitted to the client area. |
| RouteGuards.AdminLayout | src/components/Layout/AdminLayout.jsx:57-59 | No spinner and no home redirect: anything but a signed-in admin goes to sign-in; exactly a signed-in admin renders. |
| RouteGuards.SignedInRedirect | src/pages/public/LoginPage.jsx:12-16 | The form renders exactly for a visitor not signed in; a signed-in one is sent to a non-empty path. |
| RouteGuards.RoleHome | src/pages/public/LoginPage.jsx:14 | Admins and specialists get their dashboards; anyone else the client dashboard. |
| RouteGuards.SignedInRedirectPrefersReturnPage | src/pages/public/RegisterPage.jsx:14 | A saved return page wins over the role's dashboard. |
| Layouts.DashboardPath | src/components/Layout/Header.jsx:55-63 | Each known role's dashboard; no user or an unknown role gets the home page. |
| Layouts.ProfilePath | src/components/Layout/Header.jsx:65-73 | Each known role's profile; no user or an unknown role gets the home page. |
| Layouts.AccountLinksShareArea | src/components/Layout/Header.jsx:55-73 | For a known role both links lead into "/<role>/"; otherwise both are the home page. |
| Layouts.DashboardPathAgreesWithRoleHome | src/components/Layout/Header.jsx:55-63 | The header's dashboard agrees with the sign-in page's for known roles; for an unknown role they differ (home versus client dashboard). |
| Layouts.UserMenuShownForValidSession | src/components/Layout/Header.jsx:155 | For a consistent session the user menu shows exactly when signed in. |
| Layouts.UserMenuShown | src/components/Layout/Header.jsx:155 | The user menu needs both the signed-in flag and a user. |
| Layouts.Header.constructor | src/components/Layout/Header.jsx:44-47 | Both menus start closed. |
| Layouts.Header.OpenUserMenu | src/components/Layout/Header.jsx:44-47 | The user menu opens. |
| Layouts.Header.CloseUserMenu | src/components/Layout/Header.jsx:44-47 | The user menu closes. |
| Layouts.Header.Logout | src/components/Layout/Header.jsx:49-53 | The session is cleared, the user menu closes, and the home page opens. |
| Layouts.AreaShell.constructor | src/components/Layout/SpecialistLayout.jsx:63-65 | The drawer and the user menu start closed. |
| Layouts.AreaShell.ToggleDrawer | src/components/Layout/SpecialistLayout.jsx:63 | The drawer flips. |
| Layouts.AreaShell.OpenUserMenu | src/components/Layout/SpecialistLayout.jsx:64-65 | The user menu opens. |
| Layouts.AreaShell.CloseUserMenu | src/components/Layout/SpecialistLayout.jsx:64-65 | The user menu closes. |
| Layouts.AreaShell.Logout | src/components/Layout/AdminLayout.jsx:51-55 | A present session is cleared; the user menu closes and the sign-in page opens either way. |
| Layouts.AtMostOneSelected | src/components/Layout/SpecialistLayout.jsx:102 | With prefix-free item paths, at most one navigation item is highlighted. |
| Layouts.NavSelected | src/components/Layout/SpecialistLayout.jsx:102 | An item is highlighted when the current path starts with its path. |
| Layouts.OwnPageSelectsItem | src/components/Layout/SpecialistLayout.jsx:102 | On an item's page, or below it, that item and no other is highlighted. |
| Layouts.NavPathsArePrefixFree | src/components/Layout/AdminLayout.jsx:27-38 | Neither area's menu has an item whose path starts another's. |
| PostsPage.Get | src/pages/public/PostsPage.jsx:18-20 | A name reads as a value exactly when some pair has it. |
| PostsPage.Delete | src/pages/public/PostsPage.jsx:54 | No pair with the name is left. |
| PostsPage.Set | src/pages/public/PostsPage.jsx:52 | Setting never leaves the query empty. |
| PostsPage.GetAfterDelete | src/pages/public/PostsPage.jsx:54 | After a delete the name reads as absent and every other name as before. |
| PostsPage.GetAfterSet | src/pages/public/PostsPage.jsx:52 | After a set the name reads as the new value and every other name as before. |
| PostsPage.DeleteLeavesNone | src/pages/public/PostsPage.jsx:54 | A delete leaves no pair with the name. |
| PostsPage.SetLeavesOne | src/pages/public/PostsPage.jsx:52 | A set leaves exactly one pair with the name. |
| PostsPage.DeleteTwice | src/pages/public/PostsPage.jsx:54 | Deleting twice is deleting once. |
| PostsPage.SetKeepsOthers | src/pages/public/PostsPage.jsx:52 | A set leaves every other pair as it was, in order. |
| PostsPage.SearchTerm | src/pages/public/PostsPage.jsx:19 | The search parameter's value, or '' without one. |
| PostsPage.CategorySlug | src/pages/public/PostsPage.jsx:18 | A category is read exactly when the address has a category parameter. |
| PostsPage.CurrentPage | src/pages/public/PostsPage.jsx:20 | The page is NaN only when the address holds a non-empty page parameter that does not start as a number. |
| PostsPage.PageDefaultsToFirst | src/pages/public/PostsPage.jsx:20 | Without a page parameter, or with an empty one, the page is 1. |
| PostsPage.CurrentPageOfWritten | src/pages/public/PostsPage.jsx:20 | A page number written to the address reads back as the same number. |
| PostsPage.Page.constructor | src/pages/public/PostsPage.jsx:18-20 | The page starts with the address's parameters. |
| PostsPage.Page.CategoryChange | src/pages/public/PostsPage.jsx:49-58 | The category is set or removed, the page returns to 1, and every other parameter keeps its value. |
| PostsPage.Page.Search | src/pages/public/PostsPage.jsx:60-69 | The search is set or removed, the page returns to 1, and every other parameter keeps its value. |
| PostsPage.Page.PageChange | src/pages/public/PostsPage.jsx:71-74 | Only the page changes, and it reads back as the chosen number. |
| PostsPage.Page.FetchQuery | src/pages/public/PostsPage.jsx:24-32 | The request always has the page and a limit of 9, and the category and search only when not empty. |
| PostsPage.ResetFacts | src/pages/public/PostsPage.jsx:49-69 | After setting or deleting a filter and setting the page to "1", the filter reads as chosen, the page as 1, and any other name as before. |
| PostsPage.PageReset | src/pages/public/PostsPage.jsx:56 | Setting the page to "1" makes it read as page 1 and leaves every other parameter unchanged. |
| CategoryFilter.ServiceCategories | src/components/Services/ServiceCategoryFilter.jsx:20 | "All" comes first and then the fetched categories, only when some were fetched; otherwise the list is empty. |
| CategoryFilter.PostCategories | src/components/Posts/PostCategoryFilter.jsx:19 | "All" always comes first, then the fetched categories; a null answer gives "all" alone. |
| CategoryFilter.ServiceFilterShownIff | src/components/Services/ServiceCategoryFilter.jsx:42 | The service filter is shown exactly when at least one category was fetched. |
| CategoryFilter.ServiceFilterShown | src/components/Services/ServiceCategoryFilter.jsx:42 | The filter shows when the list holds more than one entry. |
| CategoryFilter.Reported | src/components/Services/ServiceCategoryFilter.jsx:31-37 | The "all" value reports null; any other value is reported unchanged. |
| CategoryFilter.ChipReported | src/components/Services/ServiceCategoryFilter.jsx:31-37 | A chip reports null for a missing slug or the "all" value, and its slug otherwise. |
| CategoryFilter.TabValue | src/components/Services/ServiceCategoryFilter.jsx:64 | The active tab is the current slug when truthy, else the "all" value. |
| CategoryFilter.TabRoundTrip | src/components/Services/ServiceCategoryFilter.jsx:31-37 | Choosing a non-empty tab and feeding the report back makes that tab active. |
| CategoryFilter.ReportOfTab | src/components/Services/ServiceCategoryFilter.jsx:64-74 | A category's tab reports its own slug when the slug is missing or a real slug other than the "all" value. |
| CategoryFilter.ClickedChipHighlighted | src/components/Services/ServiceCategoryFilter.jsx:52 | A clicked chip is highlighted once its report comes back as the current slug. |
| CategoryFilter.OneChipHighlighted | src/components/Posts/PostCategoryFilter.jsx:49 | With distinct, non-empty slugs at most one chip is highlighted, and it is "all" exactly for a falsy current slug. |
| CategoryFilter.SomeChipHighlighted | src/components/Services/ServiceCategoryFilter.jsx:52 | Some chip is highlighted when the current slug is falsy or listed. |
| CategoryFilter.Highlighted | src/components/Services/ServiceCategoryFilter.jsx:52 | A chip is highlighted when its slug is the current one, or it is the slug-less chip and the current slug is falsy; the post filter (PostCategoryFilter.jsx line 49) uses the same rule. |
| SpecialistCard.Truncate | src/components/Specialists/SpecialistCard.jsx:17-21 | Text within the limit is kept whole; longer text is cut to at most limit + 3 characters ending in "...". |
| SpecialistCard.TruncateDropsOnlyWhitespace | src/components/Specialists/SpecialistCard.jsx:20 | A cut text is the first `max` characters trimmed, then "..."; what stands before "..." is a run of the original with only white space around it up to the cut. |
| SpecialistCard.TruncateIdempotent | src/components/Specialists/SpecialistCard.jsx:17-21 | A shortened text fits the budget of a second shortening, which keeps it. |
| SpecialistCard.FullName | src/components/Specialists/SpecialistCard.jsx:36 | The full name neither starts nor ends with white space. |
| SpecialistCard.FullNameOfBothParts | src/components/Specialists/SpecialistCard.jsx:36 | Two names without surrounding spaces are joined by one space. |
| SpecialistCard.FullNameOfLastOnly | src/components/Specialists/SpecialistCard.jsx:36 | Without a first name, the full name is the last name alone. |
| SpecialistCard.FullNameOfFirstOnly | src/components/Specialists/SpecialistCard.jsx:36 | Without a last name, the full name is the first name alone. |
| SpecialistCard.ServiceChips | src/components/Specialists/SpecialistCard.jsx:99-105 | No chips for a missing or empty list; otherwise one or two labels of at most 23 characters, two exactly when there is a comma, and a "more" chip exactly when there are at least three entries. |
| SpecialistCard.ChipLabel | src/components/Specialists/SpecialistCard.jsx:102 | A label has at most 23 characters and is the trimmed entry itself when that has at most 20. |
| SpecialistCard.FirstLabels | src/components/Specialists/SpecialistCard.jsx:101-102 | One or two labels, two exactly when there are at least two entries, each at most 23 characters. |
| SpecialistCard.ShortEntriesShownWhole | src/components/Specialists/SpecialistCard.jsx:99-105 | Short entries are shown as their trimmed text. |
| SpecialistCard.OrDefault | src/components/Specialists/SpecialistCard.jsx:86 | A non-empty value is shown; a missing or empty one shows the fallback. |
| SpecialistCard.Card | src/components/Specialists/SpecialistCard.jsx:24-105 | A null specialist renders nothing; otherwise the title is never empty, the specialization and bio fit 53 and 103 characters, and the chips are those of the services. |
| SpecialistCard.PlaceholdersShownWhole | src/components/Specialists/SpecialistCard.jsx:86-97 | Without specialization or bio the placeholders are shown in full. |

## Left out

- Network calls, React effects and their scheduling, loading and submitting flags, notifications and console output. The server's answers and a request's success are parameters.
- Slot generation. The server's availability endpoint chooses the free start times; the model takes its answer as input.
- Chronology.Sort: the source's comparator returns NaN for a time that does not parse, which leaves such an order to the engine. The model places such appointments before valid ones when ascending and after them when descending.
- Time zones and daylight saving. Calendar dates are civil dates, and SpecialistDashboard.DayEnd assumes a day of 24 hours.
- Strings are sequences of characters, not UTF-16 code units.
- Text.Number: reads integer text only (digits with at most one sign); the decimal, exponent, hexadecimal and `Infinity` forms that JavaScript's `Number` also reads are NaN in the model. The ids the pages pass through it are written with `String(n)`, which never produces those forms; an address typed by hand with such a form is read differently.
- User records are maps from field names to strings; other JSON value types are not modelled.
- Rendering, icons, date formatting and the calendar widget's display settings.
- The header's handling of a missing session context.
- The scroll to the top of the page in the page-change handler of the blog list.
- The agenda view of the calendar keeps the range navigation computes as written.
- AppointmentCalendar.Calendar.Navigate: the component stores the corrected range `NavigateRange`; the program as written stores `NavigateRangeAsWritten`, which in month view can load the previous month's grid and in day view loads the Monday of the week (see Findings).
- BookingPage.IdFromString: an address id whose text is not a positive integer (`?service=0`, `-3`, `abc`) becomes no choice. The program hands the raw text to the form instead; its truthiness check passes, the text is converted with `Number` to 0 or NaN, stored back as a string and sent. The model does not follow that text through.
- BookingPage.Step0Props: with such an address id the model's form starts without a service or specialist and asks for one, where the program's form treats the raw text as a choice and sends its `Number` value (0 or NaN).
- The step-2 fetch of service and specialist details in the booking wizard (src/pages/public/BookingPage.jsx:60-82), which only feeds the summary's display.
- The booking form's loading of services, specialists and clients (src/components/Appointments/AppointmentForm.jsx:84-126).
- CommentSection.Insert: a comment whose parent id is undefined is modelled like one whose parent is null; the source would try to insert it under a parent.
- RegisterForm.PayloadOf: the line that would set the role from a form field is commented out in the source, so the role is always "client".
- The "client not chosen" exception of the booking form's admin path is modelled, and AppointmentForm.AdminCreateAlwaysHasClient proves it cannot be reached.
- BookingPage.ContactCheckPassesIff: the booking wizard checks the e-mail without trimming it, as the source does.
- Admin CRUD pages, profile pages, thin list pages and the static route table. They call the server and render; their only local logic is required-field checks.

## Findings

| source | as written | input that shows it | evidently intended | confidence | as-written member | corrected member |
|---|---|---|---|---|---|---|
| src/components/Appointments/AppointmentCalendar.jsx:149-159 | Month navigation anchors on the month of the navigated date's week start, not the date's own month. | Navigate to Saturday 2024-06-01: its week starts on Monday 27 May, so the May grid is loaded; it ends at least 14 days before 30 June. | Load the grid of the navigated date's own month. | not executed | AppointmentCalendar.MonthNavigationAsWrittenMissesMonthEnd | AppointmentCalendar.MonthNavigationCoversMonth |
| src/components/Appointments/AppointmentCalendar.jsx:162-164 | Day navigation loads the Monday of the navigated date's week. | Navigate to Wednesday 2024-05-08 in day view: only Monday 2024-05-06 is loaded. | Load the navigated day itself. | not executed | AppointmentCalendar.DayNavigationAsWrittenMissesDay | AppointmentCalendar.DayNavigation |
