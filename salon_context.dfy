/**
 * The in-memory salon store behind the booking wizard: professionals,
 * services, appointments, clients and settings, the 30-minute slot
 * generator, availability per professional and day, the booked-slot test
 * and the add / cancel / update / delete operations.
 */
module SalonContext {
  import opened Wrappers
  import opened Text
  import opened Seqs
  import opened Clock
  import opened DateUtils
  import opened SalonTypes

  // ---- slot generation -------------------------------------------------------

  /** The minutes the slot loop visits from `t` while it stays below `e`, 30 apart. */
  function SlotTimes(t: nat, e: nat): (r: seq<nat>)
    ensures t >= e ==> r == []
    ensures t < e ==> |r| == (e - t + 29) / 30 && r[0] == t
    ensures forall i :: 0 <= i < |r| ==> r[i] == t + 30 * i && r[i] < e
    decreases e - t
  {
    if t < e then [t] + SlotTimes(t + 30, e) else []
  }

  /** The labels of the slot walk from `t` while it stays below `e`. */
  function LabelsFrom(t: nat, e: nat): seq<string>
  {
    Map(SlotTimes(t, e), FormatTime)
  }

  /**
   * The labels `generateTimeSlots(start, end)` emits: nothing when either
   * bound is not a time or the start is not before the end, else a list
   * that begins with the start itself.
   */
  function SlotLabels(start: string, end: string): (r: seq<string>)
    ensures ParseTime(start).None? || ParseTime(end).None? ==> r == []
    ensures ParseTime(start).Some? && ParseTime(end).Some? ==>
      (r == [] <==> ParseTime(start).value >= ParseTime(end).value)
    ensures r != [] ==> r[0] == start
  {
    match (ParseTime(start), ParseTime(end))
    case (Some(s), Some(e)) =>
      ParseThenFormat(start, s);
      LabelsFrom(s, e)
    case _ => []
  }

  /** The label of hour `h` and minute `m` is the label of their minute count `t`. */
  lemma FormatTimeParts(h: nat, m: nat, t: nat)
    requires m < 60 && t == h * 60 + m
    ensures FormatTime(t) == Pad2(h) + ":" + Pad2(m)
  {
    assert t / 60 == h && t % 60 == m;
  }

  lemma ShiftOne(a: seq<string>, x: string, b: seq<string>)
    ensures (a + [x]) + b == a + ([x] + b)
  {
  }

  /** Pushing the label of `t` moves the walk on to `t + 30`. */
  lemma PushSlot(slots: seq<string>, lbl: string, s: nat, t: nat, u: nat, e: nat)
    requires t < e && u == t + 30 && lbl == FormatTime(t)
    requires slots + LabelsFrom(t, e) == LabelsFrom(s, e)
    ensures (slots + [lbl]) + LabelsFrom(u, e) == LabelsFrom(s, e)
  {
    var rest := SlotTimes(u, e);
    assert SlotTimes(t, e) == [t] + rest;
    MapCons(t, rest, FormatTime);
    ShiftOne(slots, lbl, Map(rest, FormatTime));
  }

  /** `generateTimeSlots` with its default 30-minute interval: the hour and minute walk up to the end. */
  method GenerateTimeSlots(start: string, end: string) returns (slots: seq<string>)
    ensures slots == SlotLabels(start, end)
  {
    slots := [];
    var ps, pe := ParseTime(start), ParseTime(end);
    if ps.None? || pe.None? {
      return;
    }
    var startHour, startMin := ps.value / 60, ps.value % 60;
    var endHour, endMin := pe.value / 60, pe.value % 60;
    var currentHour, currentMin := startHour, startMin;
    ghost var current: nat := ps.value;
    while currentHour < endHour || (currentHour == endHour && currentMin < endMin)
      invariant 0 <= currentMin < 60 && current == currentHour * 60 + currentMin
      invariant slots + LabelsFrom(current, pe.value) == LabelsFrom(ps.value, pe.value)
      decreases pe.value - current
    {
      var lbl := Pad2(currentHour) + ":" + Pad2(currentMin);
      ghost var next: nat := current + 30;
      FormatTimeParts(currentHour, currentMin, current);
      PushSlot(slots, lbl, ps.value, current, next, pe.value);
      slots := slots + [lbl];
      current := next;
      currentMin := currentMin + 30;
      if currentMin >= 60 {
        currentHour := currentHour + 1;
        currentMin := currentMin - 60;
      }
    }
  }

  /** Each label reads back as the time it was printed for. */
  lemma SlotLabelParses(s: nat, e: nat, i: nat)
    requires e < 100 * 60 && i < |LabelsFrom(s, e)|
    ensures i < |SlotTimes(s, e)| && ParseTime(LabelsFrom(s, e)[i]) == Some(SlotTimes(s, e)[i])
  {
    var t := SlotTimes(s, e)[i];
    FormatThenParse(t);
  }

  /** Later labels are larger strings. */
  lemma SlotLabelsAscend(s: nat, e: nat, i: nat, j: nat)
    requires e < 100 * 60 && i < j < |LabelsFrom(s, e)|
    ensures LexLess(LabelsFrom(s, e)[i], LabelsFrom(s, e)[j])
  {
    var ts := SlotTimes(s, e);
    FormatTimeOrder(ts[i], ts[j]);
  }

  /**
   * What the labels are: for well-formed bounds, nothing when the start is
   * not before the end; otherwise the start itself, then every 30 minutes
   * while before the end, ascending as strings.
   */
  lemma SlotLabelsMeaning(start: string, end: string, s: nat, e: nat)
    requires ParseTime(start) == Some(s) && ParseTime(end) == Some(e)
    ensures s >= e ==> SlotLabels(start, end) == []
    ensures s < e ==> |SlotLabels(start, end)| == (e - s + 29) / 30 && SlotLabels(start, end)[0] == start
    ensures forall i :: 0 <= i < |SlotLabels(start, end)| ==>
              ParseTime(SlotLabels(start, end)[i]) == Some(SlotTimes(s, e)[i]) && SlotTimes(s, e)[i] == s + 30 * i
    ensures forall i, j :: 0 <= i < j < |SlotLabels(start, end)| ==>
              LexLess(SlotLabels(start, end)[i], SlotLabels(start, end)[j])
  {
    var r := SlotLabels(start, end);
    assert r == LabelsFrom(s, e);
    if s < e {
      ParseThenFormat(start, s);
    }
    forall i | 0 <= i < |r|
      ensures ParseTime(r[i]) == Some(SlotTimes(s, e)[i])
    {
      SlotLabelParses(s, e, i);
    }
    forall i, j | 0 <= i < j < |r|
      ensures LexLess(r[i], r[j])
    {
      SlotLabelsAscend(s, e, i, j);
    }
  }

  // ---- availability ----------------------------------------------------------

  function FindProfessional(ps: seq<Professional>, id: string): Option<Professional>
  {
    Find(ps, (p: Professional) => p.id == id)
  }

  function FindService(ss: seq<Service>, id: string): Option<Service>
  {
    Find(ss, (s: Service) => s.id == id)
  }

  /**
   * `getAvailableSlots`: nothing for an unknown professional or a day that is
   * not both a salon working day and one of the professional's days;
   * otherwise the slots of the later start and the earlier end.
   */
  function AvailableSlots(ps: seq<Professional>, settings: SalonSettings, professionalId: string, date: string): (r: seq<string>)
    ensures r != [] ==>
      FindProfessional(ps, professionalId).Some?
      && FindProfessional(ps, professionalId).value in ps
      && FindProfessional(ps, professionalId).value.id == professionalId
      && GetDayOfWeekFromDateString(date).Some?
      && GetDayOfWeekFromDateString(date).value in settings.workingDays
      && GetDayOfWeekFromDateString(date).value in FindProfessional(ps, professionalId).value.availableDays
  {
    match FindProfessional(ps, professionalId)
    case None => []
    case Some(p) =>
      match GetDayOfWeekFromDateString(date)
      case None => []
      case Some(w) =>
        if w !in settings.workingDays || w !in p.availableDays then []
        else SlotLabels(LaterOf(p.availableHours.start, settings.openingHours.start),
                        EarlierOf(p.availableHours.end, settings.openingHours.end))
  }

  function Max(a: int, b: int): int { if a >= b then a else b }
  function Min(a: int, b: int): int { if a <= b then a else b }

  /**
   * On an open day with well-formed hours, the slots read back one for one
   * as the 30-minute walk from the later of the two starts while before
   * the earlier of the two ends.
   */
  lemma AvailableSlotsWindow(ps: seq<Professional>, settings: SalonSettings, professionalId: string, date: string,
                             p: Professional, ps0: nat, ss0: nat, pe0: nat, se0: nat)
    requires FindProfessional(ps, professionalId) == Some(p)
    requires GetDayOfWeekFromDateString(date).Some?
    requires GetDayOfWeekFromDateString(date).value in settings.workingDays
    requires GetDayOfWeekFromDateString(date).value in p.availableDays
    requires ParseTime(p.availableHours.start) == Some(ps0) && ParseTime(settings.openingHours.start) == Some(ss0)
    requires ParseTime(p.availableHours.end) == Some(pe0) && ParseTime(settings.openingHours.end) == Some(se0)
    ensures var r := AvailableSlots(ps, settings, professionalId, date);
            var times := SlotTimes(Max(ps0, ss0), Min(pe0, se0));
            |r| == |times| && forall i :: 0 <= i < |r| ==> ParseTime(r[i]) == Some(times[i])
  {
    OpenDaySlots(ps, settings, professionalId, date, p);
    WindowSlots(p.availableHours.start, settings.openingHours.start, p.availableHours.end, settings.openingHours.end,
                ps0, ss0, pe0, se0);
  }

  /** The slots between the later of two starts and the earlier of two ends, as minutes. */
  lemma WindowSlots(a: string, b: string, c: string, d: string, ps0: nat, ss0: nat, pe0: nat, se0: nat)
    requires ParseTime(a) == Some(ps0) && ParseTime(b) == Some(ss0)
    requires ParseTime(c) == Some(pe0) && ParseTime(d) == Some(se0)
    ensures var r := SlotLabels(LaterOf(a, b), EarlierOf(c, d));
            var times := SlotTimes(Max(ps0, ss0), Min(pe0, se0));
            |r| == |times| && forall i :: 0 <= i < |r| ==> ParseTime(r[i]) == Some(times[i])
  {
    WindowAsTimes(a, b, ps0, ss0);
    WindowAsTimes(c, d, pe0, se0);
    var lo, hi := Max(ps0, ss0), Min(pe0, se0);
    assert SlotLabels(LaterOf(a, b), EarlierOf(c, d)) == LabelsFrom(lo, hi);
    LabelsFromMeaning(lo, hi);
  }

  /** The labels from `lo` before `hi`: how many, and the time each reads back as. */
  lemma LabelsFromMeaning(lo: nat, hi: nat)
    requires hi < 100 * 60
    ensures var r := LabelsFrom(lo, hi);
            |r| == |SlotTimes(lo, hi)| && forall i :: 0 <= i < |r| ==> ParseTime(r[i]) == Some(SlotTimes(lo, hi)[i])
  {
    var r := LabelsFrom(lo, hi);
    forall i | 0 <= i < |r|
      ensures ParseTime(r[i]) == Some(SlotTimes(lo, hi)[i])
    {
      SlotLabelParses(lo, hi, i);
    }
  }

  lemma OpenDaySlots(ps: seq<Professional>, settings: SalonSettings, professionalId: string, date: string,
                     p: Professional)
    requires FindProfessional(ps, professionalId) == Some(p)
    requires GetDayOfWeekFromDateString(date).Some?
    requires GetDayOfWeekFromDateString(date).value in settings.workingDays
    requires GetDayOfWeekFromDateString(date).value in p.availableDays
    ensures AvailableSlots(ps, settings, professionalId, date) ==
      SlotLabels(LaterOf(p.availableHours.start, settings.openingHours.start),
                 EarlierOf(p.availableHours.end, settings.openingHours.end))
  {
  }

  // ---- booked slots ----------------------------------------------------------

  /** An appointment holds a slot when it is for that professional, date and time and is not cancelled. */
  predicate Occupies(a: Appointment, professionalId: string, date: string, time: string)
  {
    a.professionalId == professionalId && a.date == date && a.time == time && a.status != Cancelled
  }

  /**
   * `isSlotBooked`: `appointments.some(...)`. A slot is booked iff some
   * appointment holds it; a cancelled appointment never does.
   */
  predicate IsSlotBooked(appointments: seq<Appointment>, professionalId: string, date: string, time: string)
    ensures IsSlotBooked(appointments, professionalId, date, time) <==>
      exists i :: 0 <= i < |appointments| && appointments[i].professionalId == professionalId
        && appointments[i].date == date && appointments[i].time == time && appointments[i].status != Cancelled
  {
    AnyIff(appointments, (a: Appointment) => Occupies(a, professionalId, date, time));
    Any(appointments, (a: Appointment) => Occupies(a, professionalId, date, time))
  }

  // ---- professionals for a service ------------------------------------------

  predicate Offers(p: Professional, serviceId: string, owner: string)
  {
    serviceId in p.services || p.id == owner
  }

  /**
   * `getProfessionalsForService`: nothing for an unknown service; otherwise,
   * in their order, the professionals that list the service or own it.
   */
  function ProfessionalsForService(services: seq<Service>, ps: seq<Professional>, serviceId: string): (r: seq<Professional>)
    ensures FindService(services, serviceId).None? ==> r == []
    ensures FindService(services, serviceId).Some? ==>
      (forall i :: 0 <= i < |r| ==> r[i] in ps && Offers(r[i], serviceId, FindService(services, serviceId).value.professionalId))
      && (forall i :: 0 <= i < |ps| && Offers(ps[i], serviceId, FindService(services, serviceId).value.professionalId) ==> ps[i] in r)
  {
    match FindService(services, serviceId)
    case None => []
    case Some(service) => Filter(ps, (p: Professional) => Offers(p, serviceId, service.professionalId))
  }

  /**
   * The filter keeps the professionals' order: splitting the list splits the
   * result the same way, and a single professional is kept exactly when they
   * offer the service.
   */
  lemma ProfessionalsForServiceKeepsOrder(services: seq<Service>, a: seq<Professional>, b: seq<Professional>,
                                          p: Professional, serviceId: string)
    ensures ProfessionalsForService(services, a + b, serviceId)
            == ProfessionalsForService(services, a, serviceId) + ProfessionalsForService(services, b, serviceId)
    ensures FindService(services, serviceId).Some? ==>
      ProfessionalsForService(services, [p], serviceId)
      == (if Offers(p, serviceId, FindService(services, serviceId).value.professionalId) then [p] else [])
  {
    match FindService(services, serviceId)
    case None =>
    case Some(service) =>
      var offers := (q: Professional) => Offers(q, serviceId, service.professionalId);
      FilterAppend(a, b, offers);
      assert [p][1..] == [];
  }

  // ---- cancelling ------------------------------------------------------------

  /** `prev.map(apt => apt.id === id ? { ...apt, status: 'cancelled' } : apt)`. */
  function CancelAll(appointments: seq<Appointment>, id: string): (r: seq<Appointment>)
    ensures |r| == |appointments|
    ensures forall i :: 0 <= i < |r| ==>
      r[i] == if appointments[i].id == id then appointments[i].(status := Cancelled) else appointments[i]
  {
    if appointments == [] then []
    else [if appointments[0].id == id then appointments[0].(status := Cancelled) else appointments[0]]
         + CancelAll(appointments[1..], id)
  }

  /** Cancelling twice is cancelling once. */
  lemma CancelIdempotent(appointments: seq<Appointment>, id: string)
    ensures CancelAll(CancelAll(appointments, id), id) == CancelAll(appointments, id)
  {
    var once := CancelAll(appointments, id);
    assert forall i :: 0 <= i < |once| ==> CancelAll(once, id)[i] == once[i];
  }

  /**
   * After cancelling `id`, that appointment holds no slot, and a slot is
   * booked only if it was booked before.
   */
  lemma CancelFreesSlot(appointments: seq<Appointment>, id: string, professionalId: string, date: string, time: string)
    ensures forall i :: 0 <= i < |appointments| && appointments[i].id == id ==>
      !Occupies(CancelAll(appointments, id)[i], professionalId, date, time)
    ensures IsSlotBooked(CancelAll(appointments, id), professionalId, date, time) ==>
      IsSlotBooked(appointments, professionalId, date, time)
  {
    var after := CancelAll(appointments, id);
    if IsSlotBooked(after, professionalId, date, time) {
      var i :| 0 <= i < |after| && Occupies(after[i], professionalId, date, time);
      assert Occupies(appointments[i], professionalId, date, time);
    }
  }

  // ---- client bookkeeping ----------------------------------------------------

  predicate HasPhone(c: Client, phone: string) { c.phone == phone }

  /** A client's record after one more visit for `apt`. */
  function Visit(c: Client, apt: Appointment): Client
  {
    c.(totalVisits := c.totalVisits + 1, lastVisit := apt.date, appointments := c.appointments + [apt])
  }

  /** Every client with the appointment's phone gets the visit; the others stay. */
  function BumpVisits(cs: seq<Client>, apt: Appointment): (r: seq<Client>)
    ensures |r| == |cs|
    ensures forall i :: 0 <= i < |r| ==> r[i] == if cs[i].phone == apt.clientPhone then Visit(cs[i], apt) else cs[i]
  {
    if cs == [] then []
    else [if cs[0].phone == apt.clientPhone then Visit(cs[0], apt) else cs[0]] + BumpVisits(cs[1..], apt)
  }

  /**
   * The client list after `addAppointment`: a visit for a known phone, else
   * one new client; the list grows exactly when the phone is new.
   */
  function RecordVisit(cs: seq<Client>, apt: Appointment, newId: string): (r: seq<Client>)
    ensures |r| == |cs| <==> exists i :: 0 <= i < |cs| && cs[i].phone == apt.clientPhone
    ensures |r| == |cs| || |r| == |cs| + 1
    ensures forall i :: 0 <= i < |r| ==> r[i].phone == if i < |cs| then cs[i].phone else apt.clientPhone
  {
    if Find(cs, (c: Client) => HasPhone(c, apt.clientPhone)).Some? then BumpVisits(cs, apt)
    else cs + [Client(newId, apt.clientName, apt.clientPhone, 1, apt.date, [apt])]
  }

  predicate PhonesUnique(cs: seq<Client>)
  {
    forall i, j :: 0 <= i < j < |cs| ==> cs[i].phone != cs[j].phone
  }

  /**
   * `addAppointment`'s client bookkeeping: a known phone gets one more visit,
   * this date as last visit and the appointment, on every client with that
   * phone, and the list keeps its length; an unknown phone gets one new client
   * with a single visit. Distinct phones stay distinct.
   */
  lemma RecordVisitEffect(cs: seq<Client>, apt: Appointment, newId: string)
    ensures var r := RecordVisit(cs, apt, newId);
      |cs| <= |r| <= |cs| + 1
      && (forall i :: 0 <= i < |cs| ==>
            r[i] == if cs[i].phone == apt.clientPhone then Visit(cs[i], apt) else cs[i])
      && (|r| == |cs| + 1 <==> forall i :: 0 <= i < |cs| ==> cs[i].phone != apt.clientPhone)
      && (|r| == |cs| + 1 ==> r[|cs|] == Client(newId, apt.clientName, apt.clientPhone, 1, apt.date, [apt]))
    ensures PhonesUnique(cs) ==> PhonesUnique(RecordVisit(cs, apt, newId))
  {
    var f := (c: Client) => HasPhone(c, apt.clientPhone);
    if Find(cs, f).Some? {
      var c := Find(cs, f).value;
      var k :| 0 <= k < |cs| && cs[k] == c;
    }
  }

  // ---- editing services and professionals ------------------------------------

  /** `prev.map(s => s.id === id ? { ...s, ...patch } : s)`. */
  function PatchServices(ss: seq<Service>, id: string, patch: ServicePatch): (r: seq<Service>)
    ensures |r| == |ss|
    ensures forall i :: 0 <= i < |r| ==> r[i] == if ss[i].id == id then ApplyServicePatch(ss[i], patch) else ss[i]
  {
    if ss == [] then []
    else [if ss[0].id == id then ApplyServicePatch(ss[0], patch) else ss[0]] + PatchServices(ss[1..], id, patch)
  }

  /** `prev.filter(s => s.id !== id)`. */
  function WithoutService(ss: seq<Service>, id: string): (r: seq<Service>)
    ensures forall i :: 0 <= i < |r| ==> r[i].id != id && r[i] in ss
    ensures forall i :: 0 <= i < |ss| && ss[i].id != id ==> ss[i] in r
  {
    Filter(ss, (s: Service) => s.id != id)
  }

  function PatchProfessionals(ps: seq<Professional>, id: string, patch: ProfessionalPatch): (r: seq<Professional>)
    ensures |r| == |ps|
    ensures forall i :: 0 <= i < |r| ==> r[i] == if ps[i].id == id then ApplyProfessionalPatch(ps[i], patch) else ps[i]
  {
    if ps == [] then []
    else [if ps[0].id == id then ApplyProfessionalPatch(ps[0], patch) else ps[0]] + PatchProfessionals(ps[1..], id, patch)
  }

  function WithoutProfessional(ps: seq<Professional>, id: string): (r: seq<Professional>)
    ensures forall i :: 0 <= i < |r| ==> r[i].id != id && r[i] in ps
    ensures forall i :: 0 <= i < |ps| && ps[i].id != id ==> ps[i] in r
  {
    Filter(ps, (p: Professional) => p.id != id)
  }

  /** Deleting a service leaves no service with that id, so it can no longer be found. */
  lemma DeleteServiceRemovesIt(ss: seq<Service>, id: string)
    ensures FindService(WithoutService(ss, id), id).None?
    ensures forall other :: other != id ==> FindService(ss, other).Some? ==> FindService(WithoutService(ss, id), other).Some?
  {
    forall other | other != id && FindService(ss, other).Some?
      ensures FindService(WithoutService(ss, id), other).Some?
    {
      var s := FindService(ss, other).value;
      var k :| 0 <= k < |ss| && ss[k] == s;
      var r := WithoutService(ss, id);
      var j :| 0 <= j < |r| && r[j] == s;
    }
  }

  // ---- the store -------------------------------------------------------------

  /** The salon state the booking screens read and update. */
  class SalonStore {
    var professionals: seq<Professional>
    var services: seq<Service>
    var appointments: seq<Appointment>
    var clients: seq<Client>
    var settings: SalonSettings

    /** Starts from the given data and no clients. */
    constructor (professionals0: seq<Professional>, services0: seq<Service>,
                 appointments0: seq<Appointment>, settings0: SalonSettings)
      ensures professionals == professionals0 && services == services0
      ensures appointments == appointments0 && settings == settings0 && clients == []
    {
      professionals := professionals0;
      services := services0;
      appointments := appointments0;
      settings := settings0;
      clients := [];
    }

    /** `getAvailableSlots` on the current professionals and settings. */
    method GetAvailableSlots(professionalId: string, date: string) returns (slots: seq<string>)
      ensures slots == AvailableSlots(professionals, settings, professionalId, date)
    {
      var professional := FindProfessional(professionals, professionalId);
      if professional.None? {
        return [];
      }
      var dayOfWeek := GetDayOfWeekFromDateString(date);
      if dayOfWeek.None? || dayOfWeek.value !in settings.workingDays {
        return [];
      }
      if dayOfWeek.value !in professional.value.availableDays {
        return [];
      }
      var effectiveStart := LaterOf(professional.value.availableHours.start, settings.openingHours.start);
      var effectiveEnd := EarlierOf(professional.value.availableHours.end, settings.openingHours.end);
      slots := GenerateTimeSlots(effectiveStart, effectiveEnd);
    }

    /**
     * `addAppointment`, with the id (also the new client's id) and the
     * creation stamp passed in.
     */
    method AddAppointment(draft: AppointmentDraft, newId: string, createdAt: string)
      modifies this
      ensures appointments == old(appointments) + [Stamp(draft, newId, createdAt)]
      ensures clients == RecordVisit(old(clients), Stamp(draft, newId, createdAt), newId)
      ensures professionals == old(professionals) && services == old(services) && settings == old(settings)
    {
      var apt := Stamp(draft, newId, createdAt);
      appointments := appointments + [apt];
      var existing := Find(clients, (c: Client) => HasPhone(c, draft.clientPhone));
      if existing.Some? {
        clients := BumpVisits(clients, apt);
      } else {
        clients := clients + [Client(newId, draft.clientName, draft.clientPhone, 1, draft.date, [apt])];
      }
    }

    method CancelAppointment(id: string)
      modifies this
      ensures appointments == CancelAll(old(appointments), id)
      ensures clients == old(clients) && professionals == old(professionals)
      ensures services == old(services) && settings == old(settings)
    {
      appointments := CancelAll(appointments, id);
    }

    method AddService(service: Service, newId: string)
      modifies this
      ensures services == old(services) + [service.(id := newId)]
      ensures professionals == old(professionals) && appointments == old(appointments)
      ensures clients == old(clients) && settings == old(settings)
    {
      services := services + [service.(id := newId)];
    }

    method UpdateService(id: string, patch: ServicePatch)
      modifies this
      ensures services == PatchServices(old(services), id, patch)
      ensures professionals == old(professionals) && appointments == old(appointments)
      ensures clients == old(clients) && settings == old(settings)
    {
      services := PatchServices(services, id, patch);
    }

    method DeleteService(id: string)
      modifies this
      ensures services == WithoutService(old(services), id)
      ensures professionals == old(professionals) && appointments == old(appointments)
      ensures clients == old(clients) && settings == old(settings)
    {
      services := WithoutService(services, id);
    }

    method AddProfessional(professional: Professional, newId: string)
      modifies this
      ensures professionals == old(professionals) + [professional.(id := newId)]
      ensures services == old(services) && appointments == old(appointments)
      ensures clients == old(clients) && settings == old(settings)
    {
      professionals := professionals + [professional.(id := newId)];
    }

    method UpdateProfessional(id: string, patch: ProfessionalPatch)
      modifies this
      ensures professionals == PatchProfessionals(old(professionals), id, patch)
      ensures services == old(services) && appointments == old(appointments)
      ensures clients == old(clients) && settings == old(settings)
    {
      professionals := PatchProfessionals(professionals, id, patch);
    }

    method DeleteProfessional(id: string)
      modifies this
      ensures professionals == WithoutProfessional(old(professionals), id)
      ensures services == old(services) && appointments == old(appointments)
      ensures clients == old(clients) && settings == old(settings)
    {
      professionals := WithoutProfessional(professionals, id);
    }

    method UpdateSettings(patch: SettingsPatch)
      modifies this
      ensures settings == ApplySettingsPatch(old(settings), patch)
      ensures professionals == old(professionals) && services == old(services)
      ensures appointments == old(appointments) && clients == old(clients)
    {
      settings := ApplySettingsPatch(settings, patch);
    }
  }

  // ---- the shipped sample data -----------------------------------------------

  function SampleProfessionals(): seq<Professional>
  {
    [ Professional("1", "Ana Paula", "Cabeleireira", "professional-1.jpg", ["1", "2", "3"], [1, 2, 3, 4, 5, 6], Hours("09:00", "18:00")),
      Professional("2", "Juliana Costa", "Nail Designer", "professional-2.jpg", ["4", "5", "6"], [1, 2, 3, 4, 5], Hours("10:00", "19:00")),
      Professional("3", "Michele", "Lash Designer", "professional-3.jpg", ["7", "8"], [2, 3, 4, 5, 6], Hours("09:00", "17:00")),
      Professional("4", "Carla Mendes", "Depilação", "professional-4.jpg", ["9", "10"], [1, 2, 3, 4, 5], Hours("08:00", "16:00")) ]
  }

  function DefaultSettings(): SalonSettings
  {
    SalonSettings("Studio'Bella's Mulheres", "11999999999", [1, 2, 3, 4, 5, 6], Hours("09:00", "19:00"))
  }

  lemma SampleOpening()
    ensures ParseTime("09:00") == Some(540)
  {
    assert "09:00" == FormatTime(540);
    FormatThenParse(540);
  }

  lemma SampleStart()
    ensures ParseTime("10:00") == Some(600)
  {
    assert "10:00" == FormatTime(600);
    FormatThenParse(600);
  }

  lemma SampleEnd()
    ensures ParseTime("19:00") == Some(1140)
  {
    assert "19:00" == FormatTime(1140);
    FormatThenParse(1140);
  }

  /** Professional '2' is the second sample professional. */
  lemma SampleFindSecond()
    ensures FindProfessional(SampleProfessionals(), "2") == Some(SampleProfessionals()[1])
  {
    var ps := SampleProfessionals();
    assert ps[0].id != "2";
  }

  /** The later of 10:00 and 09:00 is 10:00; the earlier of 19:00 and 19:00 is 19:00. */
  lemma SampleBounds()
    ensures LaterOf("10:00", "09:00") == "10:00" && EarlierOf("19:00", "19:00") == "19:00"
  {
    SampleOpening();
    SampleStart();
    CompareAsTimes("10:00", "09:00", 600, 540);
    LexLessIrreflexive("19:00");
  }

  /** Professional '2' on a Monday in the default salon gets the 10:00-19:00 window. */
  lemma SampleMondayWindow()
    ensures AvailableSlots(SampleProfessionals(), DefaultSettings(), "2", "2024-12-02") == SlotLabels("10:00", "19:00")
  {
    SampleFindSecond();
    MondayExample();
    SampleBounds();
  }

  /** The 10:00-19:00 window has 18 slots, from 10:00 to 18:30. */
  lemma SampleWindowSlots()
    ensures var r := SlotLabels("10:00", "19:00");
      |r| == 18 && r[0] == "10:00" && r[17] == "18:30"
  {
    SampleStart();
    SampleEnd();
    var ts := SlotTimes(600, 1140);
    assert |ts| == 18 && ts[0] == 600 && ts[17] == 1110;
    FormatTimeParts(10, 0, 600);
    FormatTimeParts(18, 30, 1110);
    assert FormatTime(600) == "10:00" && FormatTime(1110) == "18:30";
  }

  /**
   * Professional '2' (Monday to Friday, 10:00-19:00) in the default salon
   * (09:00-19:00) on Monday 2 December 2024: 18 slots, 10:00 to 18:30.
   */
  lemma SampleMondaySlots()
    ensures var r := AvailableSlots(SampleProfessionals(), DefaultSettings(), "2", "2024-12-02");
      |r| == 18 && r[0] == "10:00" && r[17] == "18:30"
  {
    SampleMondayWindow();
    SampleWindowSlots();
  }
}
