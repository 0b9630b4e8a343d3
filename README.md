# Salon booking — a Dafny model of its scheduling core

bella-schedules-beauty is a booking service for beauty salons. A client opens a
salon's public page and picks a professional, a service, a day and a time. They
leave a name and a WhatsApp number. The `create-appointment` back-end function
then validates the request and checks that the salon's subscription is active,
that the professional and the service belong to the salon, and that the slot is
still free. If every check passes it inserts a confirmed appointment. Salon
owners manage professionals, services and opening hours from admin screens. A
professional sees their appointments, revenue and a per-service ranking on a
dashboard.

This project models that core in Dafny and proves what it promises:

- `clock.dfy`, `date_utils.dfy`, `text.dfy`: the "HH:MM" and "YYYY-MM-DD"
  strings the screens pass around. They give the JavaScript `Date` arithmetic
  for day-of-week, zero padding, `split`, `trim` and string comparison.
- `salon_context.dfy`: the in-memory store behind the local booking flow, as a
  class `SalonStore`, together with its slot generator and its availability
  rule.
- `index_flow.dfy`: the local booking wizard (class `BookingWizard`).
- `client_booking.dfy`: the public booking page (class `BookingPage`). This
  covers its own slot walk, the disabled days, the service filter, the booked
  flags, the morning/afternoon split and the WhatsApp redirect.
- `create_appointment.dfy`: the back-end booking function over a `Database`
  of rows (`db.dfy`). This covers the validation, the ownership gates, the
  conflict check and the insert.
- `dashboard.dfy`, `appointment_card.dfy`: the professional's dashboard
  statistics and the appointment card's actions.
- `settings_form.dfy`, `weekday_list.dfy`, `professional_form.dfy`,
  `professionals_admin.dfy`, `services_admin.dfy`: the admin screens and what
  they write to the database.
- `booking_success.dfy`: the confirmation screen's date format and WhatsApp
  link.
- `salon_types.dfy`, `seqs.dfy`, `wrappers.dfy`: shared records and sequence
  helpers.

The members named `Sample…` in `create_appointment.dfy` and `salon_context.dfy`
are fixtures: a concrete request, database tables, store contents and the
evaluation steps that the example lemmas build on. They model nothing of their
own and have no row below. The one exception is
`SalonContext.SampleMondaySlots`, which states what the store's own sample data
yields.

Modelling choices:
- Prices are integer cents.
- Identifiers, creation stamps and the current day are parameters.
- Database calls are methods on a `Database` object whose tables are sequences
  of rows in insertion order.
- `.maybeSingle()` yields a row only when exactly one row matches. It yields
  nothing when none match and when several match.
- JavaScript's `||` fallback treats the empty string as missing.
- JavaScript's default `.sort()` compares decimal strings. On week days 0..6
  that is numeric order, and `WeekDayList.TenBeforeNine` shows where the two
  part.

Two places where the code departs from what its sibling code and its declared
types suggest:
- The public page's slot walk (`src/pages/ClientBooking.tsx:314-319`) resets
  the minutes to zero when they pass the hour. The store's generator subtracts
  60 instead. The two agree only on half-hour starts
  (`ClientBooking.ClientWalkOnHalfHours`, `ClientBooking.QuarterPastStart`).
- The `Appointment` type declares three statuses. The code also reads and
  writes "pending" and must cope with any other string, so `SalonTypes.Status`
  has `Pending` and `Other`.

## Model

| member | source | states |
|---|---|---|
| Clock.FormatTime | src/contexts/SalonContext.tsx:319 | a minute count below 100 hours prints as two digits, a colon and two digits |
| Clock.ParseTime | src/contexts/SalonContext.tsx:312-313 | a parsed time comes only from an "HH:MM" string and stays below 100 hours |
| Clock.FormatThenParse | src/contexts/SalonContext.tsx:310-328 | printing a time and reading it back gives the same minute count |
| Clock.ParseThenFormat | src/contexts/SalonContext.tsx:310-328 | a time that parses prints back to the very same string |
| Clock.CompareAsTimes | src/contexts/SalonContext.tsx:353-354 | on well-formed "HH:MM" strings, string order is time order, in both directions |
| Clock.FormatTimeOrder | src/contexts/SalonContext.tsx:310-328 | earlier minute counts print to strings that sort earlier |
| Clock.WindowAsTimes | src/contexts/SalonContext.tsx:353-354 | the later start and the earlier end chosen by string comparison are the maximum and the minimum of the times |
| DateUtils.DaysInMonth | src/lib/dateUtils.ts:18 | every month has 28 to 31 days |
| DateUtils.DaysBeforeMonth | src/lib/dateUtils.ts:18 | the days before a month add up the lengths of the months before it |
| DateUtils.WeekDay | src/lib/dateUtils.ts:16-20 | a calendar date's week day is in 0..6 |
| DateUtils.NextDay | src/pages/ClientBooking.tsx:323-334 | the day after a valid date is a valid date |
| DateUtils.NextDayNumber | src/pages/ClientBooking.tsx:323-334 | the next day is one day later on the absolute day count, across month and year ends |
| DateUtils.NextDayWeekDay | src/lib/dateUtils.ts:16-20 | the next day's week day is the successor modulo 7 |
| DateUtils.GetDayOfWeekFromDateString | src/lib/dateUtils.ts:16-20 | any week day the string yields is in 0..6 |
| DateUtils.ParseDateString | src/lib/dateUtils.ts:25-28 | a parsed date is a valid calendar date |
| DateUtils.DigitsOrder | src/lib/dateUtils.ts:40-43 | equal-length digit strings compare as their values, in both directions |
| DateUtils.FormatIsZeroPadded | src/lib/dateUtils.ts:6-11 | a date with a four-digit year prints as "YYYY-MM-DD" whose fields read back as year, month and day |
| DateUtils.DateParseThenFormat | src/lib/dateUtils.ts:25-28 | parsing a well-formed date string and printing it again gives the same string |
| DateUtils.DateFormatThenParse | src/lib/dateUtils.ts:6-11 | printing a date and parsing the string gives the same date |
| DateUtils.DayOfWeekOfFormatted | src/lib/dateUtils.ts:6-20 | the week day read from a printed date (four-digit year) is that date's week day |
| DateUtils.StringOrderIsChronological | src/lib/dateUtils.ts:40-43 | "before today" by string comparison holds exactly when the first date is earlier |
| DateUtils.TuesdayExample | src/lib/dateUtils.ts:16-20 | "2024-12-03" is a Tuesday (2) |
| DateUtils.MondayExample | src/lib/dateUtils.ts:16-20 | "2024-12-02" is a Monday (1) |
| DateUtils.EmptyDayIsDayZero | src/lib/dateUtils.ts:16-20 | an empty day field reads as day 0, the last day of the month before: "2024-12-" has the week day of 30 November 2024 |
| Text.DecimalRoundTrip | src/pages/admin/Services.tsx:64-69 | a number's decimal string reads back as the number |
| Text.IntStringInjective | src/pages/admin/Services.tsx:64-69 | two different integers never print the same |
| Text.Pad2RoundTrip | src/lib/dateUtils.ts:8-9 | a two-digit padded number reads back as itself |
| Text.LexLessTransitive | src/lib/dateUtils.ts:42 | string order is transitive |
| Text.LexLessTotal | src/lib/dateUtils.ts:42 | of two different strings one sorts first |
| Text.JoinSplit | src/lib/dateUtils.ts:17 | joining a split string with its separator gives back the string, and no piece holds the separator |
| Text.SplitJoin | src/lib/dateUtils.ts:17 | splitting pieces that hold no separator after joining them gives back the pieces |
| Text.DigitsOnly | supabase/functions/create-appointment/index.ts:46 | stripping non-digits leaves only digits and no more characters than the input; an all-digit string comes back unchanged and a lone non-digit disappears |
| Text.DigitsOnlyCounts | supabase/functions/create-appointment/index.ts:46 | every digit of the input is kept exactly as often as it occurs, so the result holds all of the input's digits and nothing else |
| Text.Trim | supabase/functions/create-appointment/index.ts:36 | a trimmed string is no longer than the input and neither starts nor ends with white space; a string without white space comes back whole and one of white space only comes back empty |
| Text.TrimCutsOnlySpace | supabase/functions/create-appointment/index.ts:36 | the result is the stretch of the input that follows its leading white space, and what is cut off on either side is white space only |
| Text.TrimEmptyIffSpace | supabase/functions/create-appointment/index.ts:36 | trimming leaves nothing exactly when the text is white space throughout |
| Text.Utf16Length | supabase/functions/create-appointment/index.ts:36-41 | `length` counts UTF-16 code units: as many as characters when all lie in the basic plane, more when any lies beyond it, never more than twice as many |
| Text.EmojiIsTwoCodeUnits | supabase/functions/create-appointment/index.ts:36-41 | one emoji is one character but two code units |
| SalonTypes.ParseStatus | src/types/salon.ts:28 | reading a stored status string and writing it back gives the same string, and only the four known names map to known statuses |
| SalonTypes.StatusRoundTrip | src/types/salon.ts:28 | writing a status and reading it back gives the same status |
| SalonTypes.Stamp | src/contexts/SalonContext.tsx:370-374 | the new appointment keeps every field of the draft (client, service, professional, date, time, status) and takes the given id and creation stamp |
| SalonTypes.ApplyServicePatch | src/contexts/SalonContext.tsx:409 | a patch field that is present replaces the old value, and one that is absent keeps it |
| SalonTypes.ApplyProfessionalPatch | src/contexts/SalonContext.tsx:422 | present patch fields replace, absent ones keep |
| SalonTypes.ApplySettingsPatch | src/contexts/SalonContext.tsx:431 | present patch fields replace working days and hours, absent ones keep them |
| SalonTypes.PatchLaws | src/contexts/SalonContext.tsx:409 | the empty patch changes nothing, and applying a patch twice is applying it once |
| SalonTypes.ProfessionalPatchLaws | src/contexts/SalonContext.tsx:422 | the empty patch changes nothing, a patch applied twice is applied once, and two patches in a row are one patch whose present fields come from the later one |
| SalonContext.SlotTimes | src/contexts/SalonContext.tsx:310-328 | the slot times are start, start+30, ... while before the end, one for each started half hour of the window |
| SalonContext.SlotLabels | src/contexts/SalonContext.tsx:310-328 | a bound that does not parse gives no slots; otherwise there are none exactly when the start is not before the end, and the first slot is the start |
| SalonContext.GenerateTimeSlots | src/contexts/SalonContext.tsx:310-328 | the loop emits exactly the specified slot labels |
| SalonContext.SlotLabelsMeaning | src/contexts/SalonContext.tsx:310-328 | the labels read back as start + 30·i, start with the opening time, stay before the end and strictly ascend; an empty window gives no slots |
| SalonContext.SlotLabelParses | src/contexts/SalonContext.tsx:310-328 | each generated label parses back to its slot time |
| SalonContext.SlotLabelsAscend | src/contexts/SalonContext.tsx:310-328 | generated labels ascend in string order |
| SalonContext.AvailableSlots | src/contexts/SalonContext.tsx:339-346 | slots are offered only for a known professional, on a day that is both a salon working day and one of the professional's days |
| SalonContext.AvailableSlotsWindow | src/contexts/SalonContext.tsx:339-358 | on an open day the slots read back as the half-hour walk from the later start to the earlier end of salon and professional hours |
| SalonContext.SampleMondaySlots | src/contexts/SalonContext.tsx:339-358 | with the sample data professional "2" has 18 slots on Monday 2024-12-02, from "10:00" to "18:30" |
| SalonContext.IsSlotBooked | src/contexts/SalonContext.tsx:330-337 | a slot is booked exactly when some non-cancelled appointment holds that professional, date and time |
| SalonContext.ProfessionalsForService | src/contexts/SalonContext.tsx:360-367 | an unknown service has nobody; otherwise the result is exactly the professionals who list the service or own it |
| SalonContext.ProfessionalsForServiceKeepsOrder | src/contexts/SalonContext.tsx:360-367 | the filter keeps the professionals' order: two lists joined give their two results joined, and a single professional is kept exactly when the service is known and the professional lists or owns it |
| SalonContext.CancelAll | src/contexts/SalonContext.tsx:397-401 | every appointment with the id becomes cancelled and nothing else changes |
| SalonContext.CancelIdempotent | src/contexts/SalonContext.tsx:397-401 | cancelling twice is cancelling once |
| SalonContext.CancelFreesSlot | src/contexts/SalonContext.tsx:397-401 | a cancelled appointment occupies no slot, and cancelling never books a slot |
| SalonContext.BumpVisits | src/contexts/SalonContext.tsx:377-383 | each client with the appointment's phone gets one more visit; the others are unchanged |
| SalonContext.RecordVisit | src/contexts/SalonContext.tsx:377-394 | the client list keeps its length exactly when some client has the phone and otherwise grows by one; every client keeps its phone in place and the new one, last, has the appointment's phone |
| SalonContext.RecordVisitEffect | src/contexts/SalonContext.tsx:377-394 | a known phone bumps its client, an unknown one appends one new client with one visit, and unique phones stay unique |
| SalonContext.PatchServices | src/contexts/SalonContext.tsx:408-410 | the service with the id is patched and every other one is kept |
| SalonContext.WithoutService | src/contexts/SalonContext.tsx:412-414 | the result is exactly the services whose id differs |
| SalonContext.PatchProfessionals | src/contexts/SalonContext.tsx:421-423 | the professional with the id is patched and every other one is kept |
| SalonContext.WithoutProfessional | src/contexts/SalonContext.tsx:425-427 | the result is exactly the professionals whose id differs |
| SalonContext.DeleteServiceRemovesIt | src/contexts/SalonContext.tsx:412-414 | after deletion the id is not found, and every other service still is |
| SalonContext.SalonStore.constructor | src/contexts/SalonContext.tsx:34-38 | the store starts from the given lists, with no clients |
| SalonContext.SalonStore.GetAvailableSlots | src/contexts/SalonContext.tsx:339-358 | returns the available slots for the professional and date |
| SalonContext.SalonStore.AddAppointment | src/contexts/SalonContext.tsx:369-395 | appends the stamped appointment, records the client's visit and changes nothing else |
| SalonContext.SalonStore.CancelAppointment | src/contexts/SalonContext.tsx:397-401 | cancels the appointments with the id and changes nothing else |
| SalonContext.SalonStore.AddService | src/contexts/SalonContext.tsx:403-406 | appends the service with its new id and changes nothing else |
| SalonContext.SalonStore.UpdateService | src/contexts/SalonContext.tsx:408-410 | patches the service with the id and changes nothing else |
| SalonContext.SalonStore.DeleteService | src/contexts/SalonContext.tsx:412-414 | removes the services with the id and changes nothing else |
| SalonContext.SalonStore.AddProfessional | src/contexts/SalonContext.tsx:416-419 | appends the professional with its new id and changes nothing else |
| SalonContext.SalonStore.UpdateProfessional | src/contexts/SalonContext.tsx:421-423 | patches the professional with the id and changes nothing else |
| SalonContext.SalonStore.DeleteProfessional | src/contexts/SalonContext.tsx:425-427 | removes the professionals with the id and changes nothing else |
| SalonContext.SalonStore.UpdateSettings | src/contexts/SalonContext.tsx:429-435 | patches the settings and changes nothing else |
| IndexFlow.BackMovesBackward | src/pages/Index.tsx:101-132 | "back" stays put only on the first and the success screens; otherwise it moves to an earlier step, and from the date step it skips the professional step exactly when at most one professional was offered |
| IndexFlow.BookingWizard.constructor | src/pages/Index.tsx:30-37 | the wizard starts on the landing screen with nothing selected |
| IndexFlow.BookingWizard.Start | src/pages/Index.tsx:242 | starting moves to the service step and keeps every selection |
| IndexFlow.BookingWizard.SelectService | src/pages/Index.tsx:39-51 | records the service and the professionals offering it; a single one is chosen automatically and the date step follows; otherwise the professional step |
| IndexFlow.BookingWizard.SelectProfessional | src/pages/Index.tsx:53-56 | records the professional and moves to the date step |
| IndexFlow.BookingWizard.SelectDate | src/pages/Index.tsx:58-61 | records the date and moves to the time step |
| IndexFlow.BookingWizard.SelectTime | src/pages/Index.tsx:63-66 | records the time and moves to the form step |
| IndexFlow.BookingWizard.SubmitForm | src/pages/Index.tsx:68-89 | with all four selections present it appends the stamped confirmed appointment to the store, records the client's visit and shows success; otherwise nothing changes |
| IndexFlow.BookingWizard.NewBooking | src/pages/Index.tsx:91-99 | clears every selection and returns to the landing screen |
| IndexFlow.BookingWizard.Back | src/pages/Index.tsx:101-132 | moves to the previous step and clears exactly the selection that step made |
| ClientBooking.ClientNext | src/pages/ClientBooking.tsx:317-318 | the next slot is 30 minutes on in the first half hour, and the next whole hour in the second |
| ClientBooking.ClientTimesFrom | src/pages/ClientBooking.tsx:314-319 | the page's slot times start at the opening time, stay inside the window and strictly ascend |
| ClientBooking.ClientWalkOnHalfHours | src/pages/ClientBooking.tsx:314-319 | from a half-hour-aligned start the page's walk is the store's 30-minute walk |
| ClientBooking.QuarterPastStart | src/pages/ClientBooking.tsx:318 | from 09:15 to 11:00 the page offers 09:15, 09:45, 10:00 and 10:30 |
| ClientBooking.WalkSlots | src/pages/ClientBooking.tsx:310-320 | the loop emits exactly the specified labels |
| ClientBooking.ClientSlots | src/pages/ClientBooking.tsx:301-321 | without a professional or a salon there are no slots; otherwise any slots start at the opening of the professional's window within the salon's |
| ClientBooking.ClientWindow | src/pages/ClientBooking.tsx:301-308 | each bound is one of the two windows' bounds (a missing window being 09:00 to 18:00); on well-formed times the start is the later start and the end the earlier end |
| ClientBooking.LaterAndEarlier | src/pages/ClientBooking.tsx:307-308 | comparing "HH:MM" strings picks one of the two, and on well-formed times picks the numeric maximum and minimum |
| ClientBooking.ClientLabelsMeaning | src/pages/ClientBooking.tsx:310-320 | each label reads back as its slot time inside the window |
| ClientBooking.ClientLabelsAscend | src/pages/ClientBooking.tsx:310-320 | labels ascend in string order |
| ClientBooking.ClientLabelsEnds | src/pages/ClientBooking.tsx:310-320 | an empty window gives no slots; otherwise the first slot is the opening time |
| ClientBooking.NextDayOpen | src/pages/ClientBooking.tsx:323-334 | after an open day, the next day is open exactly when its week day is a salon and professional working day |
| ClientBooking.IsDateDisabled | src/pages/ClientBooking.tsx:323-334 | without a salon or a professional every day is disabled; an enabled day is today or later and a working day of both the salon and the professional |
| ClientBooking.LastDayOfHorizon | src/pages/ClientBooking.tsx:798-799 | the last day the calendar offers is exactly 60 days after today |
| ClientBooking.HorizonFromDecember | src/pages/ClientBooking.tsx:798-799 | seen from 3 December 2024, 1 February 2025 is offered and 2 February 2025 is not |
| ClientBooking.LinkedServiceIdsIff | src/pages/ClientBooking.tsx:294-299 | a service id is listed exactly when a link row joins it to the professional |
| ClientBooking.ServicesForProfessional | src/pages/ClientBooking.tsx:294-299 | only services from the list that are linked to the professional are shown, no more than the list holds |
| ClientBooking.ServicesForProfessionalIff | src/pages/ClientBooking.tsx:294-299 | a service is shown exactly when it is linked to the chosen professional |
| ClientBooking.ServicesForProfessionalKeepsOrder | src/pages/ClientBooking.tsx:294-299 | the filter keeps the order of the service list |
| ClientBooking.LeadingDigits | src/pages/ClientBooking.tsx:810-811 | the hour read from a slot is its longest digit prefix |
| ClientBooking.ClientSlotsSplit | src/pages/ClientBooking.tsx:809-811 | morning slots followed by afternoon slots are all the slots, in order |
| ClientBooking.BookedSlots | src/pages/ClientBooking.tsx:279-291 | the booked times are exactly the times of rows that block the slot for that salon, professional and date, at most one per row |
| ClientBooking.BookedFlagIsConflict | src/pages/ClientBooking.tsx:279-291 | the page marks a time booked exactly when the back end's conflict check would see a blocking row |
| ClientBooking.WithCountryCode | src/pages/ClientBooking.tsx:349-350 | the redirect number is all digits and starts with 55, added only when missing |
| ClientBooking.WithCountryCodeIdempotent | src/pages/ClientBooking.tsx:349-350 | adding the country code twice is adding it once |
| ClientBooking.RedirectNumber | src/pages/ClientBooking.tsx:343-350 | there is no redirect exactly when both WhatsApp fields are empty; otherwise it is a 55-prefixed digit string |
| ClientBooking.BookingPage.constructor | src/pages/ClientBooking.tsx:65-82 | the page starts on its landing step with nothing selected or loaded |
| ClientBooking.BookingPage.Load | src/pages/ClientBooking.tsx:214-261 | stores the salon data, marks it bookable by the subscription rule, preselects and locks a professional named in the link, and leaves the booked times and client details as they were |
| ClientBooking.BookingPage.GenerateTimeSlots | src/pages/ClientBooking.tsx:301-321 | returns the slots of the professional's window within the salon's |
| ClientBooking.BookingPage.LoadBookedSlots | src/pages/ClientBooking.tsx:279-292 | with professional, date and salon known, the booked times are those of the blocking rows; otherwise unchanged; the lock and the client details never change |
| ClientBooking.BookingPage.HandleStartBooking | src/pages/ClientBooking.tsx:429-435 | a locked professional goes straight to the service step, otherwise the professional step; data, booked times and client details are kept |
| ClientBooking.BookingPage.SelectProfessional | src/pages/ClientBooking.tsx:696 | records the professional and moves to the service step; data, booked times and client details are kept |
| ClientBooking.BookingPage.SelectService | src/pages/ClientBooking.tsx:750 | records the service and moves to the date step; data, booked times and client details are kept |
| ClientBooking.BookingPage.SelectDate | src/pages/ClientBooking.tsx:794-799 | a day that is disabled or more than 60 days after today is refused; any other is recorded and the time step follows; booked times and client details are kept |
| ClientBooking.BookingPage.PickDate | src/pages/ClientBooking.tsx:794 | records the day and moves to the time step, keeping the earlier choices valid |
| ClientBooking.BookingPage.SelectTime | src/pages/ClientBooking.tsx:809-856 | a time that is booked or is not one of the page's slots is refused; any other is recorded and the form step follows; data and client details are kept |
| ClientBooking.BookingPage.PickTime | src/pages/ClientBooking.tsx:832 | records the time and moves to the form step, keeping the earlier choices valid |
| ClientBooking.BookingPage.SetClientDetails | src/pages/ClientBooking.tsx:900-904 | records name and phone; data, booked times and the lock are kept |
| ClientBooking.BookingPage.HandleBack | src/pages/ClientBooking.tsx:400-415 | each step goes back one and clears its own selection; with a locked professional the service step goes back to landing; data, booked times and client details are kept |
| ClientBooking.BookingPage.ResetBooking | src/pages/ClientBooking.tsx:417-427 | clears the selections and client details but keeps a locked professional, the data and the booked times |
| ClientBooking.BookingPage.HandleSubmit | src/pages/ClientBooking.tsx:369-398 | sends a request exactly when every selection and the salon are present; success is shown only on a created booking; booked times and the lock are kept |
| ClientBooking.BookingRequest | src/pages/ClientBooking.tsx:376-384 | the request carries the chosen salon, professional, service and time, the date printed as "YYYY-MM-DD" (which parses back to the chosen day for four-digit years), the trimmed name and the digits of the phone |
| ClientBooking.PageRequestValidation | src/pages/ClientBooking.tsx:376-384 | a request the page builds passes the back end's validation exactly when the trimmed name has 2 to 100 UTF-16 code units and the phone 10 or 11 digits |
| ClientBooking.Preselection | src/pages/ClientBooking.tsx:254-261 | a professional id in the link selects the professional with that id, and nothing when none has it |
| ClientBooking.FindBy | src/pages/ClientBooking.tsx:255 | the professional found has the id; none is found only when no one has it |
| CreateAppointment.ValidateInput | supabase/functions/create-appointment/index.ts:20-51 | a request is valid exactly when all ids are given, the date and time are well formed, the trimmed name has at least 2 UTF-16 code units with at most 100 in all, and the phone has 10 or 11 digits |
| CreateAppointment.ValidateIsFirstFailure | supabase/functions/create-appointment/index.ts:20-51 | the message returned is that of the first failing check, in the code's order |
| CreateAppointment.FormattedPhoneAccepted | supabase/functions/create-appointment/index.ts:46-49 | a formatted number "(11) 98888-7777" is accepted |
| CreateAppointment.ShortPhoneRejected | supabase/functions/create-appointment/index.ts:46-49 | a three-digit phone is rejected |
| CreateAppointment.NameLengthBoundary | supabase/functions/create-appointment/index.ts:36-41 | a name of 100 UTF-16 code units passes the length check and one of 101 fails it |
| CreateAppointment.EmojiNamePassesMinimum | supabase/functions/create-appointment/index.ts:36 | a name made of one emoji passes the two-character minimum, since its length is two code units |
| CreateAppointment.Lookup | supabase/functions/create-appointment/index.ts:81-142 | the salon, subscription, professional and service checks only ever reject with 403 or 404 |
| CreateAppointment.Gate | supabase/functions/create-appointment/index.ts:67-142 | the checks before the conflict query only ever reject |
| CreateAppointment.GateIgnoresAppointments | supabase/functions/create-appointment/index.ts:81-142 | those checks do not depend on the appointments table |
| CreateAppointment.NewRow | supabase/functions/create-appointment/index.ts:164-175 | the inserted row is confirmed and holds the request's ids, date and time, the trimmed name and the digits of the phone |
| CreateAppointment.Taken | supabase/functions/create-appointment/index.ts:145-161 | corrected conflict check: a slot is taken exactly when some row blocks it (same salon, professional, date and time, not cancelled) |
| CreateAppointment.Conclude | supabase/functions/create-appointment/index.ts:145-200 | past the gates, a booking is created exactly when the slot is not taken, and then with the given row; the status is 201, 403, 404 or 409 |
| CreateAppointment.Decide | supabase/functions/create-appointment/index.ts:53-200 | a booking is created exactly when the request is valid, every lookup passes and the slot is not taken, and the created row is the request's row; the status is 201, 400, 403, 404 or 409 |
| CreateAppointment.DecideAsWritten | supabase/functions/create-appointment/index.ts:145-161 | the code's single-row conflict query: it books only past the gates and with the request's row, and always books a slot that is not taken |
| CreateAppointment.Handle | supabase/functions/create-appointment/index.ts:53-200 | with the corrected conflict check, the response is the decision for the tables as they were, and while no slot is held twice it is also the single-row query's decision; only a created booking adds its row, and no other table changes |
| CreateAppointment.Book | supabase/functions/create-appointment/index.ts:81-200 | the database steps, with the corrected conflict check, give the lookup's decision and insert only on success |
| CreateAppointment.CheckSalonAndMembers | supabase/functions/create-appointment/index.ts:81-142 | the database lookups give the specified rejection, if any |
| CreateAppointment.InvalidIs400 | supabase/functions/create-appointment/index.ts:67-74 | an invalid request is answered 400 with the validation message |
| CreateAppointment.NoSubscriptionIs403 | supabase/functions/create-appointment/index.ts:96-108 | a salon whose owner has no subscription row is answered 403 |
| CreateAppointment.ForeignProfessionalNeverBooks | supabase/functions/create-appointment/index.ts:111-125 | a professional who is not active in the salon never gets a booking (403 or 404) |
| CreateAppointment.ForeignProfessionalRejected | supabase/functions/create-appointment/index.ts:111-125 | the lookups reject a professional who is not active in the salon |
| CreateAppointment.DecideFollowsLookup | supabase/functions/create-appointment/index.ts:81-142 | a valid request rejected by a lookup gets exactly that rejection |
| CreateAppointment.ForeignServiceNeverBooks | supabase/functions/create-appointment/index.ts:128-142 | a service that is not active in the salon never gets a booking |
| CreateAppointment.ForeignServiceRejected | supabase/functions/create-appointment/index.ts:128-142 | the lookups reject a service that is not active in the salon |
| CreateAppointment.OccupiedSlotNeverBooks | supabase/functions/create-appointment/index.ts:145-161 | a slot held by a non-cancelled row is never booked again; past the gates the answer is 409 |
| CreateAppointment.CancelledRowsDoNotBlock | supabase/functions/create-appointment/index.ts:152 | adding a cancelled row changes no decision |
| CreateAppointment.RepeatIsConflict | supabase/functions/create-appointment/index.ts:145-185 | repeating a booking that succeeded is answered 409 |
| CreateAppointment.DecidePreservesExclusive | supabase/functions/create-appointment/index.ts:145-185 | if no slot is held twice, it stays so after a successful booking |
| CreateAppointment.AsWrittenAgreesWhenExclusive | supabase/functions/create-appointment/index.ts:145-161 | while no slot is held twice, the single-row conflict query decides as the corrected check does |
| CreateAppointment.AsWrittenDoubleBooks | supabase/functions/create-appointment/index.ts:145-161 | with two rows already holding a slot, the single-row conflict query sees nothing and books a third |
| CreateAppointment.CorrectedRefuses | supabase/functions/create-appointment/index.ts:145-161 | the corrected check answers that same request with 409 |
| Db.MaybeSingle | supabase/functions/create-appointment/index.ts:85 | a row comes back exactly when one row matches, and it is a matching row of the table |
| Db.MaybeSingleUnique | supabase/functions/create-appointment/index.ts:85 | the only matching row is the one returned |
| Db.MaybeSingleTwo | supabase/functions/create-appointment/index.ts:145-153 | two matching rows give no row |
| Db.ReplaceProfessionalLinksExact | src/components/admin/ProfessionalForm.tsx:167-178 | after the links are replaced the professional's services are exactly the chosen ones, in order |
| Db.ReplaceProfessionalLinksOthers | src/components/admin/ProfessionalForm.tsx:167-178 | every other professional keeps its services |
| Dashboard.FilteredExactly | src/pages/ProfessionalDashboard.tsx:203-208 | "today" keeps exactly today's appointments, and "month" those dated within the month's first and last day |
| Dashboard.FilteredAppointments | src/pages/ProfessionalDashboard.tsx:203-208 | the filter keeps appointments of the list and no more: only today's for "today", only those within the month for "month" |
| Dashboard.ConfirmedAppointments | src/pages/ProfessionalDashboard.tsx:210 | every appointment it keeps is confirmed or completed |
| Dashboard.PriceOf | src/pages/ProfessionalDashboard.tsx:212 | an appointment without a service adds nothing, and a non-zero amount is its service's price |
| Dashboard.ConfirmedExactly | src/pages/ProfessionalDashboard.tsx:210 | revenue counts exactly the confirmed and completed appointments |
| Dashboard.TotalRevenue | src/pages/ProfessionalDashboard.tsx:210 | with no negative prices the revenue is not negative, and without services it is zero |
| Dashboard.ServiceStatsTable | src/pages/ProfessionalDashboard.tsx:214-224 | the loop builds the specified per-service table |
| Dashboard.TallyAllSums | src/pages/ProfessionalDashboard.tsx:214-224 | each service appears once, the counts add up to the appointments with a service, and the revenues add up to the total revenue |
| Dashboard.TallyAllCovers | src/pages/ProfessionalDashboard.tsx:214-224 | every service among the appointments has a row |
| Dashboard.SortByCountSpec | src/pages/ProfessionalDashboard.tsx:225 | the ranking is by descending count, and sorting keeps the totals |
| Dashboard.SortByCount | src/pages/ProfessionalDashboard.tsx:225 | the ranking is a permutation of the table |
| Dashboard.ServiceStats | src/pages/ProfessionalDashboard.tsx:214-226 | the ranking is by descending count, with counts and revenues summing to the totals |
| Dashboard.UpcomingSpec | src/pages/ProfessionalDashboard.tsx:228-230 | the upcoming list is the first five (or fewer) appointments from today on that are confirmed or pending |
| Dashboard.UpcomingAppointments | src/pages/ProfessionalDashboard.tsx:228-230 | at most five appointments, each from the list, dated today or later and confirmed or pending |
| AppointmentCard.BadgeRules | src/components/professional/AppointmentCard.tsx:71-78 | each known status has its own badge, and pending and unknown statuses share the pending badge |
| AppointmentCard.OfferedRules | src/components/professional/AppointmentCard.tsx:109-175 | a cancelled appointment offers nothing; confirm only while pending; cancel and delete whenever not cancelled |
| AppointmentCard.BadgeFor | src/components/professional/AppointmentCard.tsx:71-78 | the badge reads "Pendente" exactly for pending and unknown statuses, always with the outline style; it is destructive exactly when cancelled and reads "Concluído" exactly when completed |
| AppointmentCard.OfferedActions | src/components/professional/AppointmentCard.tsx:109-175 | nothing is offered exactly when cancelled; otherwise the buttons end in cancel then delete, and start with confirm exactly when pending |
| AppointmentCard.CardState.constructor | src/components/professional/AppointmentCard.tsx:51 | the card starts idle with no calls made |
| AppointmentCard.CardState.Click | src/components/professional/AppointmentCard.tsx:53-69 | a click calls the action exactly when it is offered and nothing is in flight, then shows it loading |
| AppointmentCard.CardState.Invoke | src/components/professional/AppointmentCard.tsx:53-69 | the call is recorded with the card's id and the action shows loading |
| AppointmentCard.CardState.Settle | src/components/professional/AppointmentCard.tsx:53-69 | a finished call leaves the card idle |
| SettingsForm.ToggleWorkingDay | src/pages/admin/Settings.tsx:75-82 | a ticked day is removed, and an unticked day is added with the list sorted |
| SettingsForm.ToggleWorkingDayTwice | src/pages/admin/Settings.tsx:75-82 | toggling a day twice restores a sorted list |
| SettingsForm.ToggleWorkingDayAscends | src/pages/admin/Settings.tsx:75-82 | a list of week days in ascending order stays in ascending order |
| SettingsForm.SubmitSavesForm | src/pages/admin/Settings.tsx:98-114 | saving stores the form's hours and days, and reopening the form shows what was saved |
| SettingsForm.SubmitUntouched | src/pages/admin/Settings.tsx:48-65 | saving an untouched form leaves the settings unchanged |
| SettingsForm.FormFromSettings | src/pages/admin/Settings.tsx:48-65 | the form shows the settings' hours and days, and submitting it unchanged saves the same settings |
| SettingsForm.SubmitPatch | src/pages/admin/Settings.tsx:98-114 | the patch sets every modelled field, so what is saved does not depend on the settings held before |
| SettingsForm.Submit | src/pages/admin/Settings.tsx:98-116 | updates only the settings, to the form's values |
| WeekDayList.JsBeforeOnDigits | src/pages/admin/Settings.tsx:80 | the default sort order is numeric on single-digit days |
| WeekDayList.TenBeforeNine | src/pages/admin/Settings.tsx:80 | that order is not numeric beyond one digit |
| WeekDayList.JsSortSorted | src/pages/admin/Settings.tsx:80 | the sorted list is ordered and a permutation of the input |
| WeekDayList.ToggleRemoves | src/pages/admin/Settings.tsx:77-78 | toggling a present day removes it and keeps the rest |
| WeekDayList.ToggleAdds | src/pages/admin/Settings.tsx:80 | toggling an absent day adds it and sorts |
| WeekDayList.ToggleKeepsStrictlySorted | src/pages/admin/Settings.tsx:75-82 | toggling keeps a sorted list without repeats |
| WeekDayList.ToggleTwice | src/pages/admin/Settings.tsx:75-82 | toggling a day twice restores the list |
| WeekDayList.ToggleIntoPlace | src/pages/admin/Settings.tsx:80 | adding a day gives the one sorted list of the old days plus it |
| ProfessionalForm.NewFormDefaults | src/components/admin/ProfessionalForm.tsx:71-79 | a new form has Monday to Friday, 09:00 to 18:00, no services and the placeholder photo |
| ProfessionalForm.Weekdays | src/components/admin/ProfessionalForm.tsx:74-79 | Monday to Friday are in ascending order, and toggling a day twice gives them back |
| ProfessionalForm.OpenForm | src/components/admin/ProfessionalForm.tsx:57-80 | an edited professional's fields fill the form; a new form has no services and cannot be saved until a name and a specialty are given |
| ProfessionalForm.MissingNameOrSpecialty | src/components/admin/ProfessionalForm.tsx:125-128 | the form is refused exactly when the name or the specialty is white space throughout |
| ProfessionalForm.ToggleFormDay | src/components/admin/ProfessionalForm.tsx:83-90 | toggles only the days: removes a present day, adds an absent one and sorts |
| ProfessionalForm.ToggleFormDayTwice | src/components/admin/ProfessionalForm.tsx:83-90 | toggling a day twice restores the form |
| ProfessionalForm.ToggleService | src/components/admin/ProfessionalForm.tsx:92-99 | flips the one service's membership and no other |
| ProfessionalForm.ToggleServiceTwiceAbsent | src/components/admin/ProfessionalForm.tsx:92-99 | ticking and unticking a service restores the form |
| ProfessionalForm.ToggleServiceTwicePresent | src/components/admin/ProfessionalForm.tsx:92-99 | unticking and ticking a service keeps the same set but moves it last |
| ProfessionalForm.PhotoColumn | src/components/admin/ProfessionalForm.tsx:136 | an empty photo is stored as null, any other as itself |
| ProfessionalForm.NewRow | src/components/admin/ProfessionalForm.tsx:132-140 | the inserted row is active, in the salon, with the form's days; for an accepted form its name and specialty are non-empty and trimmed at both ends; a photo is stored exactly when given |
| ProfessionalForm.EditRow | src/components/admin/ProfessionalForm.tsx:144-156 | the update leaves every row without that id and salon as it is, and turns the matching row into the form's row with its active flag kept |
| ProfessionalForm.EditRowScope | src/components/admin/ProfessionalForm.tsx:144-156 | an update rewrites the salon's row with the id and keeps rows of other salons |
| ProfessionalForm.Save | src/components/admin/ProfessionalForm.tsx:117-178 | without a salon or with a blank name or specialty nothing is written; otherwise the row is updated or inserted and the links are replaced by the chosen services |
| ProfessionalForm.WriteProfessional | src/components/admin/ProfessionalForm.tsx:132-178 | writes the row and replaces the links, touching no other table |
| ProfessionalForm.WriteRow | src/components/admin/ProfessionalForm.tsx:132-165 | updates the salon's row with the id or inserts a new one, and touches neither the links nor any other table |
| ProfessionalForm.WriteLinks | src/components/admin/ProfessionalForm.tsx:167-178 | replaces the professional's links by the chosen services and touches nothing else |
| ProfessionalForm.SavedLinks | src/components/admin/ProfessionalForm.tsx:167-178 | after saving, the professional's services are the chosen ones and others keep theirs |
| ProfessionalsAdmin.OrDefault | src/pages/admin/Professionals.tsx:125-128 | a missing or empty value falls back to the default |
| ProfessionalsAdmin.HoursOf | src/pages/admin/Professionals.tsx:120-128 | each end of the hours is the row's value when present and non-empty, otherwise 09:00 or 18:00 |
| ProfessionalsAdmin.ToUiProfessional | src/pages/admin/Professionals.tsx:118-131 | the screen's professional has the row's id and name, its linked services, its days or the default ones, its specialty or "", its photo or the placeholder, and hours defaulted end by end |
| ProfessionalsAdmin.HoursDefaultIndependently | src/pages/admin/Professionals.tsx:128 | a missing start or end hour each falls back on its own |
| ProfessionalsAdmin.LoadProfessionals | src/pages/admin/Professionals.tsx:101-131 | the list holds exactly the salon's active professionals, each through the screen's mapping, and no more entries than rows read |
| ProfessionalsAdmin.LoadProfessionalsInOrder | src/pages/admin/Professionals.tsx:101-131 | the list follows the order of the rows: joined rows give joined lists, and one row is listed exactly when it is active in the salon |
| ProfessionalsAdmin.SaveThenLoad | src/pages/admin/Professionals.tsx:118-131 | a saved new professional loads back with trimmed names, the chosen services, days and hours |
| ProfessionalsAdmin.SaveThenReopen | src/components/admin/ProfessionalForm.tsx:60-69 | reopening a saved professional shows the form that was saved, names trimmed |
| ProfessionalsAdmin.SlugLinkShape | src/pages/admin/Professionals.tsx:196-202 | with a slug the client link is origin/salao/slug/profissional/id |
| ProfessionalsAdmin.IdLinkShape | src/pages/admin/Professionals.tsx:196-202 | without a slug it is origin/salon/salon-id/professional/id |
| ProfessionalsAdmin.ClientLinkSegments | src/pages/admin/Professionals.tsx:196-202 | the link's path splits into exactly those segments |
| ProfessionalsAdmin.DashboardLinkShape | src/pages/admin/Professionals.tsx:204-207 | the dashboard link is origin/profissional/id |
| ProfessionalsAdmin.ClientLink | src/pages/admin/Professionals.tsx:196-202 | the client link starts with the origin and a slash and ends with a slash and the professional's id |
| ProfessionalsAdmin.ClientRoute | src/pages/admin/Professionals.tsx:196-202 | the route has five segments, the first empty and the last the professional's id |
| ProfessionalsAdmin.DashboardLink | src/pages/admin/Professionals.tsx:204-207 | the dashboard link starts with the origin and a slash, ends with a slash and the id, and is 14 characters longer than the two |
| ProfessionalsAdmin.DeleteProfessional | src/pages/admin/Professionals.tsx:164-183 | removes the professional's links and its row in the salon, and nothing without a salon or target |
| ProfessionalsAdmin.DeleteLeavesNoLinks | src/pages/admin/Professionals.tsx:164-183 | afterwards the professional has no services and others keep theirs |
| ServicesAdmin.FirstLinkWins | src/pages/admin/Services.tsx:118-122 | a service's professional is the one in its first link row |
| ServicesAdmin.NoLinkNoProfessional | src/pages/admin/Services.tsx:118-122 | a service with no link row has no professional |
| ServicesAdmin.ServiceToProfessional | src/pages/admin/Services.tsx:118-122 | the loop's map gives each service the professional of its first link |
| ServicesAdmin.CategoryOrDefault | src/pages/admin/Services.tsx:131 | a category is never empty and a given one is kept |
| ServicesAdmin.ToUiService | src/pages/admin/Services.tsx:125-133 | the listed service keeps the row's id, name, price and duration, has a non-empty category that is the row's own when given, and shows a professional only when a link row joins them; with no link row it shows none |
| ServicesAdmin.LoadServices | src/pages/admin/Services.tsx:102-134 | the list holds exactly the salon's active services, each with a category, and no more entries than rows read |
| ServicesAdmin.LoadServicesInOrder | src/pages/admin/Services.tsx:102-134 | the list follows the order of the rows: joined rows give joined lists, and one row is listed exactly when it is active in the salon |
| ServicesAdmin.LoadServicesShows | src/pages/admin/Services.tsx:102-134 | each listed service is an active row of the salon, shown with its first linked professional |
| ServicesAdmin.FormatDuration | src/pages/admin/Services.tsx:64-69 | under an hour the text is the minutes followed by "min"; from an hour on it starts with the hours and "h", and stops there exactly on whole hours |
| ServicesAdmin.DurationExamplesLong | src/pages/admin/Services.tsx:64-69 | 90 minutes shows as "1h 30min" and 125 as "2h 5min" |
| ServicesAdmin.HasHourMark | src/pages/admin/Services.tsx:64-69 | a duration shows an hour mark exactly when it is at least an hour |
| ServicesAdmin.EndsInHour | src/pages/admin/Services.tsx:64-69 | a duration of an hour or more ends in "h" exactly when it is whole hours |
| ServicesAdmin.FormatDurationInjective | src/pages/admin/Services.tsx:64-69 | two different durations never show the same text |
| ServicesAdmin.ReplaceServiceLinksEffect | src/pages/admin/Services.tsx:210-219 | after saving, the service has exactly the chosen professional's link (or none) and other services keep theirs |
| ServicesAdmin.ReplaceServiceLinks | src/pages/admin/Services.tsx:208-219 | links of other services are kept and no others appear; the service's only remaining link is to the chosen professional, present exactly when one is chosen |
| ServicesAdmin.NewServiceRow | src/pages/admin/Services.tsx:180-188 | the inserted row is active, in the salon, with the form's name, price and duration and a non-empty category that is the form's own when given |
| ServicesAdmin.EditServiceRow | src/pages/admin/Services.tsx:193-198 | the update leaves every row without that id and salon as it is, and turns the matching row into the form's row with its active flag kept |
| ServicesAdmin.SaveService | src/pages/admin/Services.tsx:176-219 | without a salon nothing is written; otherwise the row is updated or inserted and the service's link replaced |
| ServicesAdmin.DeleteService | src/pages/admin/Services.tsx:162-174 | removes every link of the service and its row in the salon |
| ServicesAdmin.DeleteServiceEffect | src/pages/admin/Services.tsx:162-174 | no link of the service remains, and exactly the salon's row with the id is gone |
| BookingSuccess.FormatWellFormed | src/components/booking/BookingSuccess.tsx:26-29 | "YYYY-MM-DD" shows as "DD/MM/YYYY" |
| BookingSuccess.FormatExample | src/components/booking/BookingSuccess.tsx:26-29 | "2024-12-03" shows as "03/12/2024" |
| BookingSuccess.FormatWithoutDashes | src/components/booking/BookingSuccess.tsx:26-29 | a date without dashes shows as "undefined/undefined/" and the date |
| BookingSuccess.FormatRoundTrip | src/components/booking/BookingSuccess.tsx:26-29 | reversing the displayed fields gives back the three-part date |
| BookingSuccess.FormatDate | src/components/booking/BookingSuccess.tsx:26-29 | the shown text ends with a slash and the text before the first dash, which is shown as the year |
| BookingSuccess.WhatsAppUrl | src/components/booking/BookingSuccess.tsx:45 | the link always starts with https://wa.me/55 |
| BookingSuccess.CountryCodeDoubled | src/components/booking/BookingSuccess.tsx:45 | a number already starting with 55 gets 5555 here, where the booking page keeps it as it is |

## Left out

- Loading the salon's data from the database into the store (`fetchAllData`, the defaults it fills in), theme application, realtime and focus refreshes: database reads are modelled only as the rows given to each operation.
- Promises, loading flags, toasts, navigation and page titles: these are presentation and asynchrony, not state the model tracks.
- The price and duration text fields of the service form and their `Number()` parsing, and the edit-form prefill: the form holds numbers in this model.
- Photo upload and removal in the professional form: storage calls are outside the model.
- Price formatting with `Intl` and the URL encoding of the WhatsApp message: locale and encoding libraries are not modelled; the message is a parameter.
- The one-second simulated delay of the local booking wizard.
- The error paths of the public page's data load.
- The 500 answers of the back-end function (insert error, thrown exception) and its CORS preflight: the insert is modelled as succeeding.
- Concurrent requests: each back-end call is modelled as one atomic step, so the race between the conflict query and the insert is not captured.
- Clock.ParseTime: accepts only the strict "HH:MM" shape, where JavaScript's `split(':').map(Number)` would also read, for example, "09:75". For such strings the model offers no slots.
- DateUtils.FormatIsZeroPadded and the other date round trips are stated only for four-digit years.
- DateUtils.ParseDateString: fields that name no calendar day (for example "2024-02-30") give `None`, where `new Date` rolls over to a later day. Only `GetDayOfWeekFromDateString` follows that roll-over, through `JsDayNumber`; `NextDay` walks valid dates only and needs none.
- DateUtils.DateFields: fields that `Number` reads but that are not plain digit strings (surrounding spaces, a sign, a decimal point, an exponent, a 0x prefix) give `None`.
- CreateAppointment.Handle: decides with the corrected conflict check (any blocking row), not the code's `.maybeSingle()` query; the two agree while no slot is held twice, and the Findings table shows where they part.
- CreateAppointment.Book: uses the corrected conflict check as well, for the same reason.
- ClientBooking.BookingPage.HandleSubmit: the back end's answer is a parameter, not a call into `CreateAppointment.Handle`.
- The default working days in the settings form are not modelled, because settings always hold a list.
- `Object.values` key order: the per-service table is kept in first-seen order, and JavaScript's integer-like-key-first order is not modelled.
- Dashboard.SortByCountSpec: states order by count and the permutation but not that the sort is stable.
- ProfessionalForm.Save and ServicesAdmin.SaveService replace links even when a scoped update matched no row, as the code does.
- ProfessionalForm.Save, ProfessionalForm.WriteProfessional, ProfessionalForm.WriteLinks, ServicesAdmin.SaveService, ServicesAdmin.DeleteService, ProfessionalsAdmin.DeleteProfessional: every admin write to the database is modelled as succeeding. The code stops at the first write that reports an error (`if (error) throw error`), so the partial states such a failure leaves are not captured: a service whose links were deleted but whose new link failed to insert has no professional, and a professional whose links were deleted but whose row delete failed stays listed without services.
- SettingsForm.Submit: the settings form's description, welcome text, logo, theme preset, custom and price colours, social links and statistics pass through unchanged and are not modelled; only the name, WhatsApp number, opening hours and working days are.
- Dashboard.UpcomingSpec: takes the first five in the order the rows arrive; the query's ordering is not modelled.
- SalonContext.AvailableSlotsWindow: stated through the slot times of the window rather than the labels themselves.
- The `public-salon-data` function and the subscription, checkout and authentication functions are not part of this model.

## Findings

| source | as written | input that shows it | evidently intended | confidence | as-written member | corrected member |
|---|---|---|---|---|---|---|
| supabase/functions/create-appointment/index.ts:145-161 | the conflict query ends in `.maybeSingle()` and its error is ignored, so a slot held by two or more rows reads as free | two non-cancelled rows for the same salon, professional, date and time; a third request for that slot is inserted | any existing non-cancelled row for the slot is answered 409 | not executed | CreateAppointment.AsWrittenDoubleBooks | CreateAppointment.CorrectedRefuses |
