/**
 * The public booking page of one salon: the step-by-step wizard (landing,
 * professional, service, date, time, form, success), its own slot
 * generator, the calendar's disabled days, the services a professional
 * offers, the morning / afternoon split of the slots, the booked flags and
 * the WhatsApp number it redirects to. Submitting calls the booking
 * endpoint of `CreateAppointment`.
 */
module ClientBooking {
  import opened Wrappers
  import opened Text
  import opened Seqs
  import opened Clock
  import opened DateUtils
  import opened SalonTypes
  import opened Db
  import opened CreateAppointment
  import SalonContext

  datatype Step = Landing | ChooseProfessional | ChooseService | ChooseDate | ChooseTime | FillForm | Success

  /** The position of a step in the wizard. */
  function Stage(s: Step): nat
  {
    match s
    case Landing => 0
    case ChooseProfessional => 1
    case ChooseService => 2
    case ChooseDate => 3
    case ChooseTime => 4
    case FillForm => 5
    case Success => 6
  }

  /** The salon as the page loads it; `None` stands for a missing column. */
  datatype BookingSalon = BookingSalon(
    id: string,
    whatsapp: string,
    socialWhatsapp: string,
    openingHours: Option<Hours>,
    workingDays: Option<seq<int>>)

  datatype BookingProfessional = BookingProfessional(
    id: string,
    name: string,
    availableDays: Option<seq<int>>,
    availableHours: Option<Hours>)

  datatype BookingService = BookingService(id: string, name: string, priceCents: int, duration: int, category: string)

  /** A calendar day the date picker can hand over. */
  type Day = d: CivilDate | ValidDate(d) witness CivilDate(2024, 1, 1)

  /** The hours used when a professional or the salon has none. */
  const DefaultHours := Hours("09:00", "18:00")

  // ---- the page's own slot generator --------------------------------------------

  /**
   * One step of the page's walk: 30 minutes on, except that a step that
   * reaches the next hour lands on minute 0 of it.
   */
  function ClientNext(t: nat): (u: nat)
    ensures t < u <= t + 30
    ensures t % 60 < 30 ==> u == t + 30
    ensures t % 60 >= 30 ==> u % 60 == 0
  {
    if t % 60 + 30 >= 60 then (t / 60 + 1) * 60 else t + 30
  }

  /** The minutes the page's walk visits from `t` while it stays below `e`. */
  function ClientTimesFrom(t: nat, e: nat): (r: seq<nat>)
    ensures t >= e ==> r == []
    ensures t < e ==> r != [] && r[0] == t
    ensures forall i :: 0 <= i < |r| ==> t <= r[i] < e
    ensures forall i, j :: 0 <= i < j < |r| ==> r[i] < r[j]
    decreases e - t
  {
    if t < e then [t] + ClientTimesFrom(ClientNext(t), e) else []
  }

  /** From a start on the hour or the half hour, the page's walk is the store's 30-minute walk. */
  lemma {:induction false} ClientWalkOnHalfHours(t: nat, e: nat)
    requires t % 30 == 0
    ensures ClientTimesFrom(t, e) == SalonContext.SlotTimes(t, e)
    decreases e - t
  {
    if t < e {
      var u := t + 30;
      assert ClientNext(t) == u;
      assert u % 30 == 0;
      ClientWalkOnHalfHours(u, e);
      assert ClientTimesFrom(t, e) == [t] + ClientTimesFrom(u, e);
      assert SalonContext.SlotTimes(t, e) == [t] + SalonContext.SlotTimes(u, e);
    }
  }

  /** From 09:15 to 11:00 the page offers 09:15, 09:45, 10:00 and 10:30: the minute resets on the carry. */
  lemma QuarterPastStart()
    ensures ClientTimesFrom(555, 660) == [555, 585, 600, 630]
  {
    assert ClientNext(555) == 585 && ClientNext(585) == 600 && ClientNext(600) == 630 && ClientNext(630) == 660;
    assert ClientTimesFrom(660, 660) == [];
  }

  /** The labels of the page's walk. */
  function ClientLabelsFrom(t: nat, e: nat): seq<string>
  {
    Map(ClientTimesFrom(t, e), FormatTime)
  }

  /**
   * The window the page intersects: the later start and the earlier end,
   * both compared as strings; on well-formed times that is the intersection
   * of the two windows, a missing one standing for 09:00 to 18:00.
   */
  function ClientWindow(p: BookingProfessional, s: BookingSalon): (w: Hours)
    ensures var ph := p.availableHours.GetOr(DefaultHours);
      var sh := s.openingHours.GetOr(DefaultHours);
      (w.start == ph.start || w.start == sh.start) && (w.end == ph.end || w.end == sh.end)
      && (ParseTime(ph.start).Some? && ParseTime(sh.start).Some? ==>
            ParseTime(w.start) == Some(SalonContext.Max(ParseTime(ph.start).value, ParseTime(sh.start).value)))
      && (ParseTime(ph.end).Some? && ParseTime(sh.end).Some? ==>
            ParseTime(w.end) == Some(SalonContext.Min(ParseTime(ph.end).value, ParseTime(sh.end).value)))
  {
    var ph := p.availableHours.GetOr(DefaultHours);
    var sh := s.openingHours.GetOr(DefaultHours);
    LaterAndEarlier(ph.start, sh.start);
    LaterAndEarlier(ph.end, sh.end);
    Hours(LaterOf(ph.start, sh.start), EarlierOf(ph.end, sh.end))
  }

  /** `WindowAsTimes` for any two strings, stated on what they parse to. */
  lemma LaterAndEarlier(a: string, b: string)
    ensures LaterOf(a, b) == a || LaterOf(a, b) == b
    ensures EarlierOf(a, b) == a || EarlierOf(a, b) == b
    ensures ParseTime(a).Some? && ParseTime(b).Some? ==>
      ParseTime(LaterOf(a, b)) == Some(SalonContext.Max(ParseTime(a).value, ParseTime(b).value))
      && ParseTime(EarlierOf(a, b)) == Some(SalonContext.Min(ParseTime(a).value, ParseTime(b).value))
  {
    if ParseTime(a).Some? && ParseTime(b).Some? {
      WindowAsTimes(a, b, ParseTime(a).value, ParseTime(b).value);
    }
  }

  /** `generateTimeSlots`: nothing without a professional and a salon, or when a bound is not a time. */
  function ClientSlots(p: Option<BookingProfessional>, s: Option<BookingSalon>): (r: seq<string>)
    ensures p.None? || s.None? ==> r == []
    ensures r != [] ==> p.Some? && s.Some? && r[0] == ClientWindow(p.value, s.value).start
  {
    if p.None? || s.None? then []
    else
      var w := ClientWindow(p.value, s.value);
      match (ParseTime(w.start), ParseTime(w.end))
      case (Some(a), Some(b)) =>
        ClientLabelsEnds(w.start, w.end, a, b);
        ClientLabelsFrom(a, b)
      case _ => []
  }

  lemma ClientPush(slots: seq<string>, lbl: string, s: nat, t: nat, u: nat, e: nat)
    requires t < e && u == ClientNext(t) && lbl == FormatTime(t)
    requires slots + ClientLabelsFrom(t, e) == ClientLabelsFrom(s, e)
    ensures (slots + [lbl]) + ClientLabelsFrom(u, e) == ClientLabelsFrom(s, e)
  {
    var rest := ClientTimesFrom(u, e);
    assert ClientTimesFrom(t, e) == [t] + rest;
    MapCons(t, rest, FormatTime);
    SalonContext.ShiftOne(slots, lbl, Map(rest, FormatTime));
  }

  lemma NextParts(h: nat, m: nat, t: nat, u: nat)
    requires m < 60 && t == h * 60 + m
    requires u == if m + 30 >= 60 then (h + 1) * 60 else t + 30
    ensures u == ClientNext(t)
  {
    assert t / 60 == h && t % 60 == m;
  }

  lemma HourMinuteLabel(h: nat, m: nat, t: nat)
    requires m < 60 && t == h * 60 + m
    ensures FormatTime(t) == Pad2(h) + ":" + Pad2(m)
  {
    assert t / 60 == h && t % 60 == m;
  }

  /**
   * The loop of `generateTimeSlots`: print the hour and minute, add 30
   * minutes, and on reaching 60 move to minute 0 of the next hour.
   */
  method WalkSlots(a: nat, b: nat) returns (slots: seq<string>)
    ensures slots == ClientLabelsFrom(a, b)
  {
    slots := [];
    var h, m := a / 60, a % 60;
    var endH, endM := b / 60, b % 60;
    ghost var current: nat := a;
    while h < endH || (h == endH && m < endM)
      invariant 0 <= m < 60 && current == h * 60 + m
      invariant slots + ClientLabelsFrom(current, b) == ClientLabelsFrom(a, b)
      decreases b - current
    {
      var lbl := Pad2(h) + ":" + Pad2(m);
      ghost var next: nat := if m + 30 >= 60 then (h + 1) * 60 else current + 30;
      HourMinuteLabel(h, m, current);
      NextParts(h, m, current, next);
      ClientPush(slots, lbl, a, current, next, b);
      slots := slots + [lbl];
      m := m + 30;
      if m >= 60 {
        h := h + 1;
        m := 0;
      }
      current := next;
    }
  }

  /** What the page's labels are, for a window whose bounds are times `a` and `b`. */
  lemma ClientLabelsMeaning(a: nat, b: nat, i: nat)
    requires b < 100 * 60 && i < |ClientLabelsFrom(a, b)|
    ensures var ts := ClientTimesFrom(a, b);
      i < |ts| && ParseTime(ClientLabelsFrom(a, b)[i]) == Some(ts[i]) && a <= ts[i] < b
  {
    FormatThenParse(ClientTimesFrom(a, b)[i]);
  }

  /** The page's labels ascend as strings. */
  lemma ClientLabelsAscend(a: nat, b: nat, i: nat, j: nat)
    requires b < 100 * 60 && i < j < |ClientLabelsFrom(a, b)|
    ensures LexLess(ClientLabelsFrom(a, b)[i], ClientLabelsFrom(a, b)[j])
  {
    var ts := ClientTimesFrom(a, b);
    FormatTimeOrder(ts[i], ts[j]);
  }

  /** The first label is the window's start when the start is before the end; there are none otherwise. */
  lemma ClientLabelsEnds(start: string, end: string, a: nat, b: nat)
    requires ParseTime(start) == Some(a) && ParseTime(end) == Some(b)
    ensures a >= b ==> ClientLabelsFrom(a, b) == []
    ensures a < b ==> ClientLabelsFrom(a, b) != [] && ClientLabelsFrom(a, b)[0] == start
  {
    if a < b {
      ParseThenFormat(start, a);
    }
  }

  // ---- the calendar ------------------------------------------------------------

  /**
   * `isDateDisabled`: a day is disabled without a salon or a professional,
   * before today, or on a weekday missing from (or without) the salon's
   * working days or the professional's days.
   */
  predicate IsDateDisabled(s: Option<BookingSalon>, p: Option<BookingProfessional>, date: CivilDate, today: CivilDate)
    requires ValidDate(date)
    ensures s.None? || p.None? ==> IsDateDisabled(s, p, date, today)
    ensures !IsDateDisabled(s, p, date, today) ==>
      (date == today || Before(today, date))
      && s.value.workingDays.Some? && WeekDay(date) in s.value.workingDays.value
      && p.value.availableDays.Some? && WeekDay(date) in p.value.availableDays.value
  {
    s.None? || p.None? || Before(date, today)
    || s.value.workingDays.None? || WeekDay(date) !in s.value.workingDays.value
    || p.value.availableDays.None? || WeekDay(date) !in p.value.availableDays.value
  }

  /** How far ahead the calendar reaches: its last day is 60 days after today. */
  const BookingHorizon := 60

  /** The calendar's `toDate`: a day at most `BookingHorizon` days after today. */
  predicate WithinHorizon(date: CivilDate, today: CivilDate)
    requires ValidDate(date) && ValidDate(today)
  {
    DayNumber(date.year, date.month, date.day) <= DayNumber(today.year, today.month, today.day) + BookingHorizon
  }

  /** The calendar offers a day that is not disabled and lies within the horizon. */
  predicate Offered(s: Option<BookingSalon>, p: Option<BookingProfessional>, date: CivilDate, today: CivilDate)
    requires ValidDate(date) && ValidDate(today)
  {
    !IsDateDisabled(s, p, date, today) && WithinHorizon(date, today)
  }

  /** The horizon's last day is the one whose next day falls outside it: exactly 60 days after today. */
  lemma LastDayOfHorizon(d: CivilDate, today: CivilDate)
    requires ValidDate(d) && ValidDate(today)
    ensures ValidDate(NextDay(d))
    ensures WithinHorizon(d, today) && !WithinHorizon(NextDay(d), today)
      <==> DayNumber(d.year, d.month, d.day) == DayNumber(today.year, today.month, today.day) + BookingHorizon
  {
    NextDayNumber(d);
  }

  /** Seen from 3 December 2024, 1 February 2025 is the last day offered and 2 February 2025 is past it. */
  lemma HorizonFromDecember()
    ensures WithinHorizon(CivilDate(2025, 2, 1), CivilDate(2024, 12, 3))
    ensures !WithinHorizon(CivilDate(2025, 2, 2), CivilDate(2024, 12, 3))
  {
    assert DayNumber(2025, 2, 1) == DayNumber(2024, 12, 3) + 60 by {
      assert DaysBeforeMonth(2025, 2) == 31 && DaysBeforeMonth(2024, 12) == 335;
      assert LeapsBefore(2025) == LeapsBefore(2024) + 1;
    }
  }

  /** A day is strictly before the next one. */
  lemma BeforeNextDay(d: CivilDate)
    requires ValidDate(d)
    ensures Before(d, NextDay(d))
  {
  }

  /**
   * After an open day, the next day is open exactly when its weekday, one
   * more than the open day's, is both a salon working day and a day of the
   * professional.
   */
  lemma NextDayOpen(s: Option<BookingSalon>, p: Option<BookingProfessional>, d: CivilDate, today: CivilDate)
    requires ValidDate(d) && !IsDateDisabled(s, p, d, today)
    ensures !IsDateDisabled(s, p, NextDay(d), today) <==>
      (WeekDay(d) + 1) % 7 in s.value.workingDays.value && (WeekDay(d) + 1) % 7 in p.value.availableDays.value
  {
    BeforeNextDay(d);
    NextDayWeekDay(d);
  }

  // ---- services of a professional ------------------------------------------------

  /** The service ids linked to the professional, in link order. */
  function LinkedServiceIds(links: seq<LinkRow>, professionalId: string): seq<string>
  {
    Map(Filter(links, (l: LinkRow) => l.professionalId == professionalId), (l: LinkRow) => l.serviceId)
  }

  predicate Linked(links: seq<LinkRow>, professionalId: string, serviceId: string)
  {
    exists j :: 0 <= j < |links| && links[j] == LinkRow(professionalId, serviceId)
  }

  lemma LinkedServiceIdsIff(links: seq<LinkRow>, professionalId: string, serviceId: string)
    ensures serviceId in LinkedServiceIds(links, professionalId) <==> Linked(links, professionalId, serviceId)
  {
    var f := Filter(links, (l: LinkRow) => l.professionalId == professionalId);
    var ids := LinkedServiceIds(links, professionalId);
    if serviceId in ids {
      var k :| 0 <= k < |ids| && ids[k] == serviceId;
      assert f[k] in links;
      var j :| 0 <= j < |links| && links[j] == f[k];
      assert links[j] == LinkRow(professionalId, serviceId);
    }
    if Linked(links, professionalId, serviceId) {
      var j :| 0 <= j < |links| && links[j] == LinkRow(professionalId, serviceId);
      assert links[j] in f;
      var k :| 0 <= k < |f| && f[k] == links[j];
      assert ids[k] == serviceId;
    }
  }

  /** `getServicesForProfessional`: the services, in their order, that some link ties to the professional. */
  function ServicesForProfessional(links: seq<LinkRow>, services: seq<BookingService>, professionalId: string): (r: seq<BookingService>)
    ensures |r| <= |services|
    ensures forall i :: 0 <= i < |r| ==> r[i] in services && r[i].id in LinkedServiceIds(links, professionalId)
  {
    Filter(services, (s: BookingService) => s.id in LinkedServiceIds(links, professionalId))
  }

  /** A listed service is offered iff some link ties it to the professional. */
  lemma ServicesForProfessionalIff(links: seq<LinkRow>, services: seq<BookingService>, professionalId: string, s: BookingService)
    requires s in services
    ensures s in ServicesForProfessional(links, services, professionalId) <==> Linked(links, professionalId, s.id)
  {
    LinkedServiceIdsIff(links, professionalId, s.id);
  }

  /** The result keeps the services' order: splitting the catalogue splits the result the same way. */
  lemma ServicesForProfessionalKeepsOrder(links: seq<LinkRow>, a: seq<BookingService>, b: seq<BookingService>, professionalId: string)
    ensures ServicesForProfessional(links, a + b, professionalId)
            == ServicesForProfessional(links, a, professionalId) + ServicesForProfessional(links, b, professionalId)
  {
    FilterAppend(a, b, (s: BookingService) => s.id in LinkedServiceIds(links, professionalId));
  }

  // ---- morning and afternoon --------------------------------------------------------

  /** The longest prefix of decimal digits. */
  function LeadingDigits(s: string): (r: string)
    ensures AllDigits(r) && |r| <= |s| && r == s[..|r|]
    decreases |s|
  {
    if s != [] && IsDigit(s[0]) then [s[0]] + LeadingDigits(s[1..]) else ""
  }

  /**
   * `parseInt(slot.split(':')[0])`: the number the slot's leading digits
   * spell (a colon is not a digit, so the part before it has the same
   * leading digits); NaN, here `None`, when it starts with no digit.
   */
  function SlotHour(slot: string): Option<nat>
  {
    var d := LeadingDigits(slot);
    if d == [] then None else Some(DigitsValue(d))
  }

  predicate IsMorning(slot: string)
  {
    SlotHour(slot).Some? && SlotHour(slot).value < 12
  }

  predicate IsAfternoon(slot: string)
  {
    SlotHour(slot).Some? && SlotHour(slot).value >= 12
  }

  lemma {:induction false} LeadingDigitsJoin(a: string, b: string)
    requires AllDigits(a) && (b == [] || !IsDigit(b[0]))
    ensures LeadingDigits(a + b) == a
    decreases |a|
  {
    if a == [] {
      assert a + b == b;
    } else {
      assert (a + b)[0] == a[0] && (a + b)[1..] == a[1..] + b;
      LeadingDigitsJoin(a[1..], b);
    }
  }

  /** The hour a label reads as is its minute count's hour. */
  lemma LabelHour(t: nat)
    requires t < 100 * 60
    ensures SlotHour(FormatTime(t)) == Some(t / 60)
  {
    var h := Pad2(t / 60);
    assert FormatTime(t) == h + (":" + Pad2(t % 60));
    LeadingDigitsJoin(h, ":" + Pad2(t % 60));
    Pad2RoundTrip(t / 60);
  }

  /** The page's labels: the morning list followed by the afternoon list is all of them. */
  lemma ClientSlotsSplit(a: nat, b: nat)
    requires b < 100 * 60
    ensures Filter(ClientLabelsFrom(a, b), IsMorning) + Filter(ClientLabelsFrom(a, b), IsAfternoon) == ClientLabelsFrom(a, b)
  {
    var r, ts := ClientLabelsFrom(a, b), ClientTimesFrom(a, b);
    forall i | 0 <= i < |r|
      ensures SlotHour(r[i]) == Some(ts[i] / 60)
    {
      LabelHour(ts[i]);
    }
    forall i, j | 0 <= i < j < |r| && IsAfternoon(r[i])
      ensures IsAfternoon(r[j])
    {
      assert ts[i] < ts[j];
    }
    FilterSplit(r, IsMorning, IsAfternoon);
  }

  // ---- booked flags -------------------------------------------------------------

  /** `loadBookedSlots`: the times of the salon's non-cancelled rows for that professional and date. */
  function BookedSlots(rows: seq<AppointmentRow>, salonId: string, professionalId: string, date: string): (r: seq<string>)
    ensures |r| <= |rows|
    ensures forall t :: t in r ==> exists a :: a in rows && Blocks(a, salonId, professionalId, date, t)
    ensures forall a :: a in rows && Blocks(a, salonId, professionalId, date, a.time) ==> a.time in r
  {
    var live := (a: AppointmentRow) => a.salonId == salonId && a.professionalId == professionalId
                                       && a.date == date && a.status != "cancelled";
    MapFilterMembers(rows, live, (a: AppointmentRow) => a.time);
    Map(Filter(rows, live), (a: AppointmentRow) => a.time)
  }

  /**
   * A slot button is disabled exactly when the booking endpoint would find
   * a row holding that slot.
   */
  lemma BookedFlagIsConflict(rows: seq<AppointmentRow>, salonId: string, professionalId: string, date: string, time: string)
    ensures time in BookedSlots(rows, salonId, professionalId, date) <==>
      Exists(rows, (a: AppointmentRow) => Blocks(a, salonId, professionalId, date, time))
  {
    var p := (a: AppointmentRow) => a.salonId == salonId && a.professionalId == professionalId
                                    && a.date == date && a.status != "cancelled";
    var f := Filter(rows, p);
    var b := BookedSlots(rows, salonId, professionalId, date);
    if time in b {
      var k :| 0 <= k < |b| && b[k] == time;
      assert f[k] in rows;
      var j :| 0 <= j < |rows| && rows[j] == f[k];
      assert Blocks(rows[j], salonId, professionalId, date, time);
    }
    if Exists(rows, (a: AppointmentRow) => Blocks(a, salonId, professionalId, date, time)) {
      var j :| 0 <= j < |rows| && Blocks(rows[j], salonId, professionalId, date, time);
      assert p(rows[j]);
      var k :| 0 <= k < |f| && f[k] == rows[j];
      assert b[k] == time;
    }
  }

  // ---- WhatsApp --------------------------------------------------------------------

  /** The digits of a number with "55" in front unless they already start with it. */
  function WithCountryCode(number: string): (r: string)
    ensures AllDigits(r) && StartsWith(r, "55")
    ensures r == DigitsOnly(number) || r == "55" + DigitsOnly(number)
  {
    var clean := DigitsOnly(number);
    if StartsWith(clean, "55") then clean else "55" + clean
  }

  /** Normalising a normalised number changes nothing. */
  lemma WithCountryCodeIdempotent(number: string)
    ensures WithCountryCode(WithCountryCode(number)) == WithCountryCode(number)
  {
    var r := WithCountryCode(number);
    assert DigitsOnly(r) == r;
  }

  /**
   * The number `handleWhatsAppRedirect` opens: the salon's WhatsApp, else
   * the one in its social media, with the country code; nothing when
   * neither is set.
   */
  function RedirectNumber(s: BookingSalon): (r: Option<string>)
    ensures r.Some? ==> AllDigits(r.value) && StartsWith(r.value, "55")
    ensures r.None? <==> s.whatsapp == "" && s.socialWhatsapp == ""
  {
    var raw := if s.whatsapp != "" then s.whatsapp else s.socialWhatsapp;
    if raw == "" then None else Some(WithCountryCode(raw))
  }

  // ---- the page --------------------------------------------------------------------

  /** What `loadSalon` puts on the page: the salon, its active professionals and services, the links between them and whether booking is open. */
  datatype PageData = PageData(
    salon: Option<BookingSalon>,
    professionals: seq<BookingProfessional>,
    services: seq<BookingService>,
    links: seq<LinkRow>,
    isSalonActive: bool)

  /** The salon is bookable when its subscription is active and it has a professional and a service. */
  predicate Bookable(subscriptionActive: bool, professionals: seq<BookingProfessional>, services: seq<BookingService>)
  {
    subscriptionActive && |professionals| > 0 && |services| > 0
  }

  class BookingPage {
    var step: Step
    var data: PageData
    var isProfessionalLocked: bool
    var selectedProfessional: Option<BookingProfessional>
    var selectedService: Option<BookingService>
    var selectedDate: Option<Day>
    var selectedTime: Option<string>
    var clientName: string
    var clientPhone: string
    var bookedSlots: seq<string>

    /**
     * Each step holds the choices the steps before it made: a locked or
     * chosen professional from the service step on, then the service, the
     * day (a real calendar day) and the time.
     */
    predicate Valid()
      reads this
    {
      (Stage(step) >= Stage(ChooseService) ==> selectedProfessional.Some?)
      && (Stage(step) >= Stage(ChooseDate) ==> selectedService.Some?)
      && (Stage(step) >= Stage(ChooseTime) ==> selectedDate.Some?)
      && (Stage(step) >= Stage(FillForm) ==> selectedTime.Some?)
    }

    constructor ()
      ensures Valid() && step == Landing && data == PageData(None, [], [], [], false) && !isProfessionalLocked
      ensures selectedProfessional.None? && selectedService.None? && selectedDate.None? && selectedTime.None?
      ensures bookedSlots == []
    {
      step := Landing;
      data := PageData(None, [], [], [], false);
      isProfessionalLocked := false;
      selectedProfessional := None;
      selectedService := None;
      selectedDate := None;
      selectedTime := None;
      clientName := "";
      clientPhone := "";
      bookedSlots := [];
    }

    /**
     * `loadSalon` once the data has arrived (again on every window focus,
     * whatever the step): the page is bookable iff the
     * subscription is active and there is a professional and a service; a
     * professional named in the link is selected and locked when found.
     */
    method Load(s: BookingSalon, ps: seq<BookingProfessional>, ss: seq<BookingService>, ls: seq<LinkRow>,
                subscriptionActive: bool, preselected: Option<string>)
      requires Valid()
      modifies this
      ensures Valid() && step == old(step)
      ensures data == PageData(Some(s), ps, ss, ls, Bookable(subscriptionActive, ps, ss))
      ensures Preselection(ps, preselected).Some? ==>
        selectedProfessional == Preselection(ps, preselected) && isProfessionalLocked
      ensures Preselection(ps, preselected).None? ==>
        selectedProfessional == old(selectedProfessional) && isProfessionalLocked == old(isProfessionalLocked)
      ensures selectedService == old(selectedService) && selectedDate == old(selectedDate) && selectedTime == old(selectedTime)
      ensures bookedSlots == old(bookedSlots)
      ensures clientName == old(clientName) && clientPhone == old(clientPhone)
    {
      var found := Preselection(ps, preselected);
      data := PageData(Some(s), ps, ss, ls, Bookable(subscriptionActive, ps, ss));
      if found.Some? {
        selectedProfessional := found;
        isProfessionalLocked := true;
      }
    }

    /** The slots of the time step, from the page's generator. */
    method GenerateTimeSlots() returns (slots: seq<string>)
      ensures slots == ClientSlots(selectedProfessional, data.salon)
    {
      slots := [];
      if selectedProfessional.None? || data.salon.None? {
        return;
      }
      var w := ClientWindow(selectedProfessional.value, data.salon.value);
      var ps, pe := ParseTime(w.start), ParseTime(w.end);
      if ps.None? || pe.None? {
        return;
      }
      slots := WalkSlots(ps.value, pe.value);
    }

    /** `loadBookedSlots`, given the appointments table. */
    method LoadBookedSlots(rows: seq<AppointmentRow>)
      requires Valid()
      modifies this
      ensures Valid()
      ensures selectedProfessional.Some? && selectedDate.Some? && data.salon.Some? ==>
        bookedSlots == BookedSlots(rows, data.salon.value.id, selectedProfessional.value.id, FormatDateToBrazil(selectedDate.value))
      ensures !(selectedProfessional.Some? && selectedDate.Some? && data.salon.Some?) ==> bookedSlots == old(bookedSlots)
      ensures step == old(step) && selectedProfessional == old(selectedProfessional) && selectedDate == old(selectedDate)
      ensures selectedService == old(selectedService) && selectedTime == old(selectedTime) && data == old(data)
      ensures isProfessionalLocked == old(isProfessionalLocked)
      ensures clientName == old(clientName) && clientPhone == old(clientPhone)
    {
      if selectedProfessional.None? || selectedDate.None? || data.salon.None? {
        return;
      }
      bookedSlots := BookedSlots(rows, data.salon.value.id, selectedProfessional.value.id, FormatDateToBrazil(selectedDate.value));
    }

    /**
     * `handleStartBooking`, behind the landing button that only a bookable
     * salon shows: straight to the services for a locked professional,
     * else to the professionals.
     */
    method HandleStartBooking()
      requires Valid() && step == Landing && data.isSalonActive
      modifies this
      ensures Valid()
      ensures step == if isProfessionalLocked && selectedProfessional.Some? then ChooseService else ChooseProfessional
      ensures selectedProfessional == old(selectedProfessional) && selectedService == old(selectedService)
      ensures selectedDate == old(selectedDate) && selectedTime == old(selectedTime)
      ensures isProfessionalLocked == old(isProfessionalLocked)
      ensures data == old(data)
      ensures bookedSlots == old(bookedSlots)
      ensures clientName == old(clientName) && clientPhone == old(clientPhone)
    {
      if isProfessionalLocked && selectedProfessional.Some? {
        step := ChooseService;
      } else {
        step := ChooseProfessional;
      }
    }

    method SelectProfessional(p: BookingProfessional)
      requires Valid() && step == ChooseProfessional
      modifies this
      ensures Valid() && step == ChooseService && selectedProfessional == Some(p)
      ensures selectedService == old(selectedService) && selectedDate == old(selectedDate) && selectedTime == old(selectedTime)
      ensures isProfessionalLocked == old(isProfessionalLocked)
      ensures data == old(data)
      ensures bookedSlots == old(bookedSlots)
      ensures clientName == old(clientName) && clientPhone == old(clientPhone)
    {
      selectedProfessional := Some(p);
      step := ChooseService;
    }

    method SelectService(s: BookingService)
      requires Valid() && step == ChooseService
      modifies this
      ensures Valid() && step == ChooseDate && selectedService == Some(s)
      ensures selectedProfessional == old(selectedProfessional) && selectedDate == old(selectedDate)
      ensures selectedTime == old(selectedTime) && isProfessionalLocked == old(isProfessionalLocked)
      ensures data == old(data)
      ensures bookedSlots == old(bookedSlots)
      ensures clientName == old(clientName) && clientPhone == old(clientPhone)
    {
      selectedService := Some(s);
      step := ChooseDate;
    }

    /** The calendar hands over a day only when it is not disabled and not past the horizon. */
    method SelectDate(d: Day, today: Day)
      requires Valid() && step == ChooseDate
      modifies this
      ensures Valid()
      ensures !Offered(data.salon, selectedProfessional, d, today) ==> step == old(step) && selectedDate == old(selectedDate)
      ensures Offered(data.salon, selectedProfessional, d, today) ==> step == ChooseTime && selectedDate == Some(d)
      ensures selectedProfessional == old(selectedProfessional) && selectedService == old(selectedService)
      ensures selectedTime == old(selectedTime) && isProfessionalLocked == old(isProfessionalLocked) && data == old(data)
      ensures bookedSlots == old(bookedSlots)
      ensures clientName == old(clientName) && clientPhone == old(clientPhone)
    {
      if !Offered(data.salon, selectedProfessional, d, today) {
        return;
      }
      PickDate(d);
    }

    /** Records a day and moves on to the time step. */
    method PickDate(d: Day)
      requires Valid() && step == ChooseDate
      modifies this
      ensures Valid() && step == ChooseTime && selectedDate == Some(d)
      ensures selectedProfessional == old(selectedProfessional) && selectedService == old(selectedService)
      ensures selectedTime == old(selectedTime) && isProfessionalLocked == old(isProfessionalLocked) && data == old(data)
      ensures bookedSlots == old(bookedSlots)
      ensures clientName == old(clientName) && clientPhone == old(clientPhone)
    {
      selectedDate := Some(d);
      step := ChooseTime;
    }

    /** A time the page offers: one of its slots that is not booked. */
    predicate Pickable(t: string)
      reads this
    {
      t !in bookedSlots && t in ClientSlots(selectedProfessional, data.salon)
    }

    /**
     * Only the page's own slots have buttons, and a booked slot's button is
     * disabled; any other slot moves on to the form.
     */
    method SelectTime(t: string)
      requires Valid() && step == ChooseTime
      modifies this
      ensures Valid()
      ensures !Pickable(t) ==> step == old(step) && selectedTime == old(selectedTime)
      ensures Pickable(t) ==> step == FillForm && selectedTime == Some(t)
      ensures selectedProfessional == old(selectedProfessional) && selectedService == old(selectedService)
      ensures selectedDate == old(selectedDate) && isProfessionalLocked == old(isProfessionalLocked)
      ensures bookedSlots == old(bookedSlots)
      ensures data == old(data)
      ensures clientName == old(clientName) && clientPhone == old(clientPhone)
    {
      if !Pickable(t) {
        return;
      }
      PickTime(t);
    }

    /** Records a time and moves on to the form. */
    method PickTime(t: string)
      requires Valid() && step == ChooseTime
      modifies this
      ensures Valid() && step == FillForm && selectedTime == Some(t)
      ensures selectedProfessional == old(selectedProfessional) && selectedService == old(selectedService)
      ensures selectedDate == old(selectedDate) && isProfessionalLocked == old(isProfessionalLocked)
      ensures bookedSlots == old(bookedSlots)
      ensures data == old(data)
      ensures clientName == old(clientName) && clientPhone == old(clientPhone)
    {
      selectedTime := Some(t);
      step := FillForm;
    }

    method SetClientDetails(name: string, phone: string)
      requires Valid()
      modifies this
      ensures Valid() && clientName == name && clientPhone == phone
      ensures step == old(step) && selectedProfessional == old(selectedProfessional) && selectedService == old(selectedService)
      ensures selectedDate == old(selectedDate) && selectedTime == old(selectedTime)
      ensures data == old(data)
      ensures bookedSlots == old(bookedSlots)
      ensures isProfessionalLocked == old(isProfessionalLocked)
    {
      clientName := name;
      clientPhone := phone;
    }

    /**
     * `handleBack`: professional -> landing; service -> landing for a
     * locked professional, else -> professional clearing it; date ->
     * service clearing the service; time -> date clearing the day; form ->
     * time clearing the time. Landing and success stay put.
     */
    method HandleBack()
      requires Valid()
      modifies this
      ensures Valid()
      ensures old(step) == ChooseProfessional ==> step == Landing && selectedProfessional == old(selectedProfessional)
      ensures old(step) == ChooseService && isProfessionalLocked ==> step == Landing && selectedProfessional == old(selectedProfessional)
      ensures old(step) == ChooseService && !isProfessionalLocked ==> step == ChooseProfessional && selectedProfessional.None?
      ensures old(step) == ChooseDate ==> step == ChooseService && selectedService.None?
      ensures old(step) == ChooseTime ==> step == ChooseDate && selectedDate.None?
      ensures old(step) == FillForm ==> step == ChooseTime && selectedTime.None?
      ensures old(step) == Landing || old(step) == Success ==> step == old(step)
      ensures old(step) != ChooseService ==> selectedProfessional == old(selectedProfessional)
      ensures old(step) != ChooseDate ==> selectedService == old(selectedService)
      ensures old(step) != ChooseTime ==> selectedDate == old(selectedDate)
      ensures old(step) != FillForm ==> selectedTime == old(selectedTime)
      ensures isProfessionalLocked == old(isProfessionalLocked)
      ensures data == old(data)
      ensures bookedSlots == old(bookedSlots)
      ensures clientName == old(clientName) && clientPhone == old(clientPhone)
    {
      match step
      case ChooseProfessional =>
        step := Landing;
      case ChooseService =>
        if isProfessionalLocked {
          step := Landing;
        } else {
          step := ChooseProfessional;
          selectedProfessional := None;
        }
      case ChooseDate =>
        step := ChooseService;
        selectedService := None;
      case ChooseTime =>
        step := ChooseDate;
        selectedDate := None;
      case FillForm =>
        step := ChooseTime;
        selectedTime := None;
      case _ =>
    }

    /** `resetBooking`: back to the landing step, keeping only a locked professional. */
    method ResetBooking()
      requires Valid()
      modifies this
      ensures Valid() && step == Landing
      ensures isProfessionalLocked ==> selectedProfessional == old(selectedProfessional)
      ensures !isProfessionalLocked ==> selectedProfessional.None?
      ensures selectedService.None? && selectedDate.None? && selectedTime.None?
      ensures clientName == "" && clientPhone == "" && isProfessionalLocked == old(isProfessionalLocked)
      ensures data == old(data)
      ensures bookedSlots == old(bookedSlots)
    {
      step := Landing;
      if !isProfessionalLocked {
        selectedProfessional := None;
      }
      selectedService := None;
      selectedDate := None;
      selectedTime := None;
      clientName := "";
      clientPhone := "";
    }

    /** Every choice is made and a name and a phone are typed. */
    predicate ReadyToSubmit()
      reads this
    {
      selectedProfessional.Some? && selectedService.Some? && selectedDate.Some? && selectedTime.Some?
      && clientName != "" && clientPhone != "" && data.salon.Some?
    }

    /**
     * `handleSubmit`: with every choice made and a name and a phone typed,
     * sends the booking request (returned as `sent`); `response` is the
     * endpoint's answer to it. The page moves on to success exactly when
     * the answer is a created appointment.
     */
    method HandleSubmit(response: Outcome) returns (sent: Option<Request>)
      requires Valid()
      modifies this
      ensures Valid()
      ensures sent.None? <==> !old(ReadyToSubmit())
      ensures sent.Some? ==> ReadyToSubmit() && sent.value == BookingRequest(data.salon.value.id, selectedProfessional.value.id,
        selectedService.value.id, selectedDate.value, selectedTime.value, clientName, clientPhone)
      ensures step == if sent.Some? && response.Created? then Success else old(step)
      ensures selectedProfessional == old(selectedProfessional) && selectedService == old(selectedService)
      ensures selectedDate == old(selectedDate) && selectedTime == old(selectedTime) && data == old(data)
      ensures clientName == old(clientName) && clientPhone == old(clientPhone)
      ensures bookedSlots == old(bookedSlots)
      ensures isProfessionalLocked == old(isProfessionalLocked)
    {
      if !ReadyToSubmit() {
        return None;
      }
      sent := Some(BookingRequest(data.salon.value.id, selectedProfessional.value.id, selectedService.value.id,
                                  selectedDate.value, selectedTime.value, clientName, clientPhone));
      if response.Created? {
        step := Success;
      }
    }
  }

  /** The body `handleSubmit` posts: the day as "yyyy-MM-dd", the name trimmed and the phone reduced to digits. */
  function BookingRequest(salonId: string, professionalId: string, serviceId: string, date: CivilDate,
                          time: string, name: string, phone: string): (r: Request)
    requires ValidDate(date)
    ensures r.salonId == Some(salonId) && r.professionalId == Some(professionalId)
    ensures r.serviceId == Some(serviceId) && r.time == Some(time)
    ensures r.date == Some(FormatDateToBrazil(date))
    ensures 1000 <= date.year <= 9999 ==> ParseDateString(r.date.value) == Some(date)
    ensures r.clientName == Some(Trim(name)) && |r.clientName.value| <= |name|
    ensures r.clientPhone == Some(DigitsOnly(phone))
    ensures AllDigits(r.clientPhone.value) && |r.clientPhone.value| <= |phone|
  {
    var req := Request(Some(salonId), Some(professionalId), Some(serviceId), Some(FormatDateToBrazil(date)),
                       Some(time), Some(Trim(name)), Some(DigitsOnly(phone)));
    if 1000 <= date.year <= 9999 then
      DateFormatThenParse(date);
      req
    else
      req
  }

  /** Trimming a trimmed string changes nothing. */
  lemma TrimTwice(s: string)
    ensures Trim(Trim(s)) == Trim(s)
  {
    var r := Trim(s);
    if r != [] {
      assert TrimStart(r) == r;
      assert TrimEnd(r) == r;
    }
  }

  /**
   * With the choices of the wizard in place (ids, a four-digit year, an
   * "HH:MM" slot), the endpoint accepts the page's request exactly when
   * the trimmed name has 2 to 100 UTF-16 code units and the phone has 10 or 11
   * digits: cleaning on the page does not change the endpoint's verdict.
   */
  lemma PageRequestValidation(salonId: string, professionalId: string, serviceId: string, date: CivilDate,
                              time: string, name: string, phone: string)
    requires salonId != "" && professionalId != "" && serviceId != ""
    requires ValidDate(date) && 1000 <= date.year <= 9999 && IsTimeShape(time)
    ensures ValidateInput(BookingRequest(salonId, professionalId, serviceId, date, time, name, phone)).None?
      <==> 2 <= Utf16Length(Trim(name)) <= 100 && PhoneDigitsOk(phone)
  {
    var r := BookingRequest(salonId, professionalId, serviceId, date, time, name, phone);
    assert Given(r.salonId) && Given(r.professionalId) && Given(r.serviceId);
    FormatIsZeroPadded(date);
    assert r.date == Some(FormatDateToBrazil(date)) && IsDateShape(r.date.value);
    assert r.time == Some(time) && Given(r.date) && Given(r.time);
    TrimTwice(name);
    assert r.clientName == Some(Trim(name)) && Trim(r.clientName.value) == Trim(name);
    var n := Utf16Length(Trim(name));
    assert Utf16Length(Trim(r.clientName.value)) == n && Utf16Length(r.clientName.value) == n;
    assert r.clientPhone == Some(DigitsOnly(phone)) && DigitsOnly(r.clientPhone.value) == DigitsOnly(phone);
    assert PhoneDigitsOk(r.clientPhone.value) == PhoneDigitsOk(phone);
    assert ValidateInput(r).None? <==> 2 <= n <= 100 && PhoneDigitsOk(r.clientPhone.value);
  }

  /** The professional a booking link names, when the loaded list holds one with that id. */
  function Preselection(ps: seq<BookingProfessional>, preselected: Option<string>): (r: Option<BookingProfessional>)
    ensures r.Some? ==> preselected.Some? && r.value in ps && r.value.id == preselected.value
    ensures r.None? <==> preselected.None? || forall i :: 0 <= i < |ps| ==> ps[i].id != preselected.value
  {
    if preselected.Some? && |ps| > 0 then FindBy(ps, preselected.value) else None
  }

  /** `professionals.find(p => p.id === id)`. */
  function FindBy(ps: seq<BookingProfessional>, id: string): (r: Option<BookingProfessional>)
    ensures r.Some? ==> r.value in ps && r.value.id == id
    ensures r.None? ==> forall i :: 0 <= i < |ps| ==> ps[i].id != id
  {
    Find(ps, (p: BookingProfessional) => p.id == id)
  }
}
