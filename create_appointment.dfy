/**
 * The public booking endpoint: it validates the request body, checks that
 * the salon exists, that its owner's subscription is active, that the
 * professional and the service are active members of that salon and that
 * the slot is free, and then inserts one confirmed appointment.
 */
module CreateAppointment {
  import opened Wrappers
  import opened Text
  import opened Seqs
  import opened Clock
  import opened DateUtils
  import opened Db

  // ---- input validation ------------------------------------------------------

  /** The request body; a field is `None` when it is absent or not a string. */
  datatype Request = Request(
    salonId: Option<string>,
    professionalId: Option<string>,
    serviceId: Option<string>,
    date: Option<string>,
    time: Option<string>,
    clientName: Option<string>,
    clientPhone: Option<string>)

  /** `!x || typeof x !== 'string'` is false: a non-empty string. */
  predicate Given(f: Option<string>)
  {
    f.Some? && f.value != ""
  }

  const SalonIdMessage := "salonId is required"
  const ProfessionalIdMessage := "professionalId is required"
  const ServiceIdMessage := "serviceId is required"
  const DateMessage := "date is required and must be in YYYY-MM-DD format"
  const TimeMessage := "time is required and must be in HH:MM format"
  const NameShortMessage := "clientName is required and must have at least 2 characters"
  const NameLongMessage := "clientName must be less than 100 characters"
  const PhoneMissingMessage := "clientPhone is required"
  const PhoneInvalidMessage := "clientPhone must be a valid Brazilian phone number"

  /** A phone is acceptable when it holds 10 or 11 decimal digits, whatever else it holds. */
  predicate PhoneDigitsOk(phone: string)
  {
    10 <= |DigitsOnly(phone)| <= 11
  }

  /**
   * `validateInput`: the message of the first failing check, or `None`
   * (null) when every check passes.
   */
  function ValidateInput(r: Request): (err: Option<string>)
    ensures err.None? <==>
      Given(r.salonId) && Given(r.professionalId) && Given(r.serviceId)
      && r.date.Some? && IsDateShape(r.date.value)
      && r.time.Some? && IsTimeShape(r.time.value)
      && r.clientName.Some? && 2 <= Utf16Length(Trim(r.clientName.value)) && Utf16Length(r.clientName.value) <= 100
      && r.clientPhone.Some? && PhoneDigitsOk(r.clientPhone.value)
  {
    if !Given(r.salonId) then Some(SalonIdMessage)
    else if !Given(r.professionalId) then Some(ProfessionalIdMessage)
    else if !Given(r.serviceId) then Some(ServiceIdMessage)
    else if !Given(r.date) || !IsDateShape(r.date.value) then Some(DateMessage)
    else if !Given(r.time) || !IsTimeShape(r.time.value) then Some(TimeMessage)
    else if !Given(r.clientName) || Utf16Length(Trim(r.clientName.value)) < 2 then Some(NameShortMessage)
    else if Utf16Length(r.clientName.value) > 100 then Some(NameLongMessage)
    else if !Given(r.clientPhone) then Some(PhoneMissingMessage)
    else if !PhoneDigitsOk(r.clientPhone.value) then Some(PhoneInvalidMessage)
    else None
  }

  /** One check of the validator: whether it passes and the message it reports when it does not. */
  datatype Check = Check(ok: bool, message: string)

  /** The validator's checks, in the order it runs them. */
  function Checks(r: Request): seq<Check>
  {
    [ Check(Given(r.salonId), SalonIdMessage),
      Check(Given(r.professionalId), ProfessionalIdMessage),
      Check(Given(r.serviceId), ServiceIdMessage),
      Check(Given(r.date) && IsDateShape(r.date.value), DateMessage),
      Check(Given(r.time) && IsTimeShape(r.time.value), TimeMessage),
      Check(Given(r.clientName) && 2 <= Utf16Length(Trim(r.clientName.value)), NameShortMessage),
      Check(Given(r.clientName) && Utf16Length(r.clientName.value) <= 100, NameLongMessage),
      Check(Given(r.clientPhone), PhoneMissingMessage),
      Check(Given(r.clientPhone) && PhoneDigitsOk(r.clientPhone.value), PhoneInvalidMessage) ]
  }

  /** The message of the first failing check of a list. */
  function FirstFailure(cs: seq<Check>): (r: Option<string>)
    ensures r.None? <==> forall i :: 0 <= i < |cs| ==> cs[i].ok
  {
    if cs == [] then None
    else if !cs[0].ok then Some(cs[0].message)
    else FirstFailure(cs[1..])
  }

  lemma FirstFailureStep(cs: seq<Check>, i: int)
    requires 0 <= i < |cs|
    ensures FirstFailure(cs[i..]) == if !cs[i].ok then Some(cs[i].message) else FirstFailure(cs[i + 1..])
  {
    assert cs[i..][1..] == cs[i + 1..];
  }

  /** On nine checks, the first failure is the one a chain of early returns reports. */
  lemma FirstFailureOfNine(cs: seq<Check>)
    requires |cs| == 9
    ensures FirstFailure(cs) ==
      if !cs[0].ok then Some(cs[0].message) else if !cs[1].ok then Some(cs[1].message)
      else if !cs[2].ok then Some(cs[2].message) else if !cs[3].ok then Some(cs[3].message)
      else if !cs[4].ok then Some(cs[4].message) else if !cs[5].ok then Some(cs[5].message)
      else if !cs[6].ok then Some(cs[6].message) else if !cs[7].ok then Some(cs[7].message)
      else if !cs[8].ok then Some(cs[8].message) else None
  {
    assert cs[0..] == cs && cs[9..] == [];
    FirstFailureStep(cs, 0);
    FirstFailureStep(cs, 1);
    FirstFailureStep(cs, 2);
    FirstFailureStep(cs, 3);
    FirstFailureStep(cs, 4);
    FirstFailureStep(cs, 5);
    FirstFailureStep(cs, 6);
    FirstFailureStep(cs, 7);
    FirstFailureStep(cs, 8);
  }

  /** The validator reports exactly the first of its checks, in order, that fails. */
  lemma ValidateIsFirstFailure(r: Request)
    ensures ValidateInput(r) == FirstFailure(Checks(r))
  {
    FirstFailureOfNine(Checks(r));
  }

  /** The formatted phone "(11) 98888-7777" holds 11 digits and is accepted. */
  lemma FormattedPhoneAccepted()
    ensures PhoneDigitsOk("(11) 98888-7777")
  {
    assert "(11) 98888-7777" == "(11) " + "98888-" + "7777";
    DigitsOnlyJoin("(11) " + "98888-", "7777");
    DigitsOnlyJoin("(11) ", "98888-");
    AreaCodeDigits();
    NumberDigits();
  }

  lemma AreaCodeDigits()
    ensures DigitsOnly("(11) ") == "11"
  {
    assert DigitsOnly(") ") == "";
  }

  lemma NumberDigits()
    ensures DigitsOnly("98888-") == "98888" && DigitsOnly("7777") == "7777"
  {
    assert AllDigits("7777");
    assert DigitsOnly("-") == "";
    DigitsOnlyJoin("98888", "-");
    assert AllDigits("98888");
    assert "98888-" == "98888" + "-";
  }

  /** "123" holds three digits and is rejected. */
  lemma ShortPhoneRejected()
    ensures !PhoneDigitsOk("123")
  {
    assert |DigitsOnly("123")| <= 3;
  }

  /** A name of exactly 100 UTF-16 code units passes the length check; one of 101 does not. */
  lemma NameLengthBoundary(r: Request)
    requires Given(r.salonId) && Given(r.professionalId) && Given(r.serviceId)
    requires r.date.Some? && IsDateShape(r.date.value) && r.time.Some? && IsTimeShape(r.time.value)
    requires r.clientName.Some? && 2 <= Utf16Length(Trim(r.clientName.value))
    ensures Utf16Length(r.clientName.value) == 100 ==> ValidateInput(r) != Some(NameLongMessage)
    ensures Utf16Length(r.clientName.value) == 101 ==> ValidateInput(r) == Some(NameLongMessage)
  {
    assert Given(r.clientName);
    assert Given(r.date) && Given(r.time);
  }

  /**
   * A single emoji is two code units long, so a name made of one clears the
   * two-character minimum, as `trim().length` counts it.
   */
  lemma EmojiNamePassesMinimum(r: Request)
    requires Given(r.salonId) && Given(r.professionalId) && Given(r.serviceId)
    requires r.date.Some? && IsDateShape(r.date.value) && r.time.Some? && IsTimeShape(r.time.value)
    requires r.clientName == Some("\U{1F600}")
    ensures ValidateInput(r) != Some(NameShortMessage)
  {
    EmojiIsTwoCodeUnits();
    assert !IsJsSpace("\U{1F600}"[0]);
    assert Trim("\U{1F600}") == "\U{1F600}";
    assert Given(r.clientName) && Given(r.date) && Given(r.time);
  }

  // ---- the handler's decision chain -----------------------------------------

  /** The five tables the handler reads, as they stand when the request arrives. */
  datatype Tables = Tables(
    salons: seq<SalonRow>,
    subscriptions: seq<SubscriptionRow>,
    professionals: seq<ProfessionalRow>,
    services: seq<ServiceRow>,
    appointments: seq<AppointmentRow>)

  function Snapshot(db: Database): Tables
    reads db
  {
    Tables(db.salons, db.subscriptions, db.professionals, db.services, db.appointments)
  }

  /** What the handler answers: an error status with its message, or 201 with the inserted row. */
  datatype Outcome = Rejected(status: int, error: string) | Created(row: AppointmentRow)

  function StatusOf(o: Outcome): int
  {
    if o.Created? then 201 else o.status
  }

  predicate ActiveProfessional(p: ProfessionalRow, id: string, salonId: string)
  {
    p.id == id && p.salonId == salonId && p.isActive
  }

  predicate ActiveService(s: ServiceRow, id: string, salonId: string)
  {
    s.id == id && s.salonId == salonId && s.isActive
  }

  /** A row that holds the slot: same salon, professional, date and time, not cancelled. */
  predicate Blocks(a: AppointmentRow, salonId: string, professionalId: string, date: string, time: string)
  {
    a.salonId == salonId && a.professionalId == professionalId && a.date == date && a.time == time
    && a.status != "cancelled"
  }

  /**
   * The lookups after validation, in order: the salon (404), its owner's
   * subscription (403), the professional and the service as active members
   * of that salon (404 each); `None` when all of them are found.
   */
  function Lookup(t: Tables, salonId: string, professionalId: string, serviceId: string): (o: Option<Outcome>)
    ensures o.Some? ==> o.value.Rejected? && o.value.status in {403, 404}
  {
    match MaybeSingle(t.salons, (s: SalonRow) => s.id == salonId)
    case None => Some(Rejected(404, "Salon not found"))
    case Some(salon) =>
      var sub := MaybeSingle(t.subscriptions, (s: SubscriptionRow) => s.userId == salon.ownerId);
      if sub.None? || sub.value.status != "active" then Some(Rejected(403, "Salon subscription is not active"))
      else if MaybeSingle(t.professionals, (p: ProfessionalRow) => ActiveProfessional(p, professionalId, salonId)).None? then
        Some(Rejected(404, "Professional not found in this salon"))
      else if MaybeSingle(t.services, (s: ServiceRow) => ActiveService(s, serviceId, salonId)).None? then
        Some(Rejected(404, "Service not found in this salon"))
      else None
  }

  /** The status and message of the checks before the conflict test, or `None` when all of them pass. */
  function Gate(t: Tables, r: Request): (o: Option<Outcome>)
    ensures o.Some? ==> o.value.Rejected?
  {
    match ValidateInput(r)
    case Some(e) => Some(Rejected(400, e))
    case None => Lookup(t, r.salonId.value, r.professionalId.value, r.serviceId.value)
  }

  /** The lookups never read the appointments table. */
  lemma GateIgnoresAppointments(t: Tables, r: Request, appointments: seq<AppointmentRow>)
    ensures Gate(t.(appointments := appointments), r) == Gate(t, r)
  {
    var t2 := t.(appointments := appointments);
    assert t2.salons == t.salons && t2.subscriptions == t.subscriptions;
    assert t2.professionals == t.professionals && t2.services == t.services;
  }

  /**
   * Some row of `appointments` holds the slot; the front-to-back scan the
   * handler runs finds one exactly then.
   */
  predicate Taken(appointments: seq<AppointmentRow>, salonId: string, professionalId: string, date: string, time: string)
    ensures Taken(appointments, salonId, professionalId, date, time) <==>
      Any(appointments, (a: AppointmentRow) => Blocks(a, salonId, professionalId, date, time))
  {
    AnyIff(appointments, (a: AppointmentRow) => Blocks(a, salonId, professionalId, date, time));
    Exists(appointments, (a: AppointmentRow) => Blocks(a, salonId, professionalId, date, time))
  }

  /** The row the handler inserts: trimmed name, digits-only phone, status "confirmed". */
  function NewRow(r: Request, newId: string): (row: AppointmentRow)
    requires ValidateInput(r).None?
    ensures row.status == "confirmed" && row.clientName == Trim(r.clientName.value)
    ensures row.clientPhone == DigitsOnly(r.clientPhone.value) && PhoneDigitsOk(r.clientPhone.value)
    ensures row.salonId == r.salonId.value && row.professionalId == r.professionalId.value
    ensures row.serviceId == r.serviceId.value && row.date == r.date.value && row.time == r.time.value
    ensures row.id == newId
  {
    AppointmentRow(newId, r.salonId.value, r.professionalId.value, r.serviceId.value, r.date.value, r.time.value,
                   Trim(r.clientName.value), DigitsOnly(r.clientPhone.value), "confirmed")
  }

  /** Past validation: the lookups, then 409 when the slot is taken, else 201 with `row`. */
  function Conclude(t: Tables, salonId: string, professionalId: string, serviceId: string,
                    date: string, time: string, row: AppointmentRow): (o: Outcome)
    ensures o.Created? <==>
      (Lookup(t, salonId, professionalId, serviceId).None? && !Taken(t.appointments, salonId, professionalId, date, time))
    ensures o.Created? ==> o.row == row
    ensures StatusOf(o) in {201, 403, 404, 409}
  {
    match Lookup(t, salonId, professionalId, serviceId)
    case Some(o) => o
    case None =>
      if Taken(t.appointments, salonId, professionalId, date, time) then Rejected(409, "This time slot is already booked")
      else Created(row)
  }

  /** The handler's answer, with the conflict test reporting any row that holds the slot. */
  function Decide(t: Tables, r: Request, newId: string): (o: Outcome)
    ensures o.Created? <==>
      (ValidateInput(r).None? &&
       Lookup(t, r.salonId.value, r.professionalId.value, r.serviceId.value).None? &&
       !Taken(t.appointments, r.salonId.value, r.professionalId.value, r.date.value, r.time.value))
    ensures o.Created? ==> o.row == NewRow(r, newId)
    ensures StatusOf(o) in {201, 400, 403, 404, 409}
  {
    match ValidateInput(r)
    case Some(e) => Rejected(400, e)
    case None =>
      Conclude(t, r.salonId.value, r.professionalId.value, r.serviceId.value, r.date.value, r.time.value,
               NewRow(r, newId))
  }

  /**
   * The handler's answer as written: the conflict query ends in
   * `.maybeSingle()`, which reports no row when two or more rows hold the slot.
   */
  function DecideAsWritten(t: Tables, r: Request, newId: string): (o: Outcome)
    ensures o.Created? ==> Gate(t, r).None? && o.row == NewRow(r, newId)
    ensures (Gate(t, r).None? &&
             !Taken(t.appointments, r.salonId.value, r.professionalId.value, r.date.value, r.time.value))
            ==> o.Created?
    ensures StatusOf(o) in {201, 400, 403, 404, 409}
  {
    match Gate(t, r)
    case Some(o) => o
    case None =>
      var existing := MaybeSingle(t.appointments,
        (a: AppointmentRow) => Blocks(a, r.salonId.value, r.professionalId.value, r.date.value, r.time.value));
      if existing.Some? then Rejected(409, "This time slot is already booked")
      else Created(NewRow(r, newId))
  }

  /**
   * The handler: answers as `Decide` does, appends the new row on 201 and
   * leaves every table unchanged otherwise. On a table where no two live rows
   * hold one slot, that is also the answer of the code as written.
   */
  method Handle(db: Database, r: Request, newId: string) returns (res: Outcome)
    modifies db
    ensures res == Decide(old(Snapshot(db)), r, newId)
    ensures Exclusive(old(db.appointments)) ==> res == DecideAsWritten(old(Snapshot(db)), r, newId)
    ensures res.Created? ==> db.appointments == old(db.appointments) + [res.row]
    ensures !res.Created? ==> db.appointments == old(db.appointments)
    ensures db.salons == old(db.salons) && db.subscriptions == old(db.subscriptions)
    ensures db.professionals == old(db.professionals) && db.services == old(db.services)
    ensures db.links == old(db.links)
  {
    if Exclusive(db.appointments) {
      AsWrittenAgreesWhenExclusive(Snapshot(db), r, newId);
    }
    var err := ValidateInput(r);
    if err.Some? {
      return Rejected(400, err.value);
    }
    var row := NewRow(r, newId);
    res := Book(db, r.salonId.value, r.professionalId.value, r.serviceId.value, r.date.value, r.time.value, row);
  }

  /** The handler past validation: the lookups, the conflict test and the insert of `row`. */
  method Book(db: Database, salonId: string, professionalId: string, serviceId: string,
              date: string, time: string, row: AppointmentRow) returns (res: Outcome)
    modifies db
    ensures res == Conclude(old(Snapshot(db)), salonId, professionalId, serviceId, date, time, row)
    ensures res.Created? ==> db.appointments == old(db.appointments) + [row]
    ensures !res.Created? ==> db.appointments == old(db.appointments)
    ensures db.salons == old(db.salons) && db.subscriptions == old(db.subscriptions)
    ensures db.professionals == old(db.professionals) && db.services == old(db.services)
    ensures db.links == old(db.links)
  {
    var rejected := CheckSalonAndMembers(db, salonId, professionalId, serviceId);
    if rejected.Some? {
      return rejected.value;
    }
    var taken := Any(db.appointments, (a: AppointmentRow) => Blocks(a, salonId, professionalId, date, time));
    AnyIff(db.appointments, (a: AppointmentRow) => Blocks(a, salonId, professionalId, date, time));
    if taken {
      return Rejected(409, "This time slot is already booked");
    }
    db.appointments := db.appointments + [row];
    return Created(row);
  }

  /** The handler's lookups against the live tables; they change nothing. */
  method CheckSalonAndMembers(db: Database, salonId: string, professionalId: string, serviceId: string)
    returns (rejected: Option<Outcome>)
    ensures rejected == Lookup(Snapshot(db), salonId, professionalId, serviceId)
  {
    var salon := MaybeSingle(db.salons, (s: SalonRow) => s.id == salonId);
    if salon.None? {
      return Some(Rejected(404, "Salon not found"));
    }
    var subscription := MaybeSingle(db.subscriptions, (s: SubscriptionRow) => s.userId == salon.value.ownerId);
    if subscription.None? || subscription.value.status != "active" {
      return Some(Rejected(403, "Salon subscription is not active"));
    }
    var professional := MaybeSingle(db.professionals, (p: ProfessionalRow) => ActiveProfessional(p, professionalId, salonId));
    if professional.None? {
      return Some(Rejected(404, "Professional not found in this salon"));
    }
    var service := MaybeSingle(db.services, (s: ServiceRow) => ActiveService(s, serviceId, salonId));
    if service.None? {
      return Some(Rejected(404, "Service not found in this salon"));
    }
    return None;
  }

  // ---- what the chain guarantees ----------------------------------------------

  /** An invalid request is answered 400 with the validator's message, whatever the tables hold. */
  lemma InvalidIs400(t: Tables, r: Request, newId: string)
    requires ValidateInput(r).Some?
    ensures Decide(t, r, newId) == Rejected(400, ValidateInput(r).value)
  {
  }

  /** A salon whose owner has no subscription row is answered 403, never 201. */
  lemma NoSubscriptionIs403(t: Tables, r: Request, newId: string, salon: SalonRow)
    requires ValidateInput(r).None?
    requires MaybeSingle(t.salons, (s: SalonRow) => s.id == r.salonId.value) == Some(salon)
    requires forall i :: 0 <= i < |t.subscriptions| ==> t.subscriptions[i].userId != salon.ownerId
    ensures StatusOf(Decide(t, r, newId)) == 403
  {
    MaybeSingleNone(t.subscriptions, (s: SubscriptionRow) => s.userId == salon.ownerId);
  }

  /**
   * Tenant isolation: when no active professional row with the requested id
   * belongs to the requested salon, nothing is inserted.
   */
  lemma ForeignProfessionalNeverBooks(t: Tables, r: Request, newId: string)
    requires ValidateInput(r).None?
    requires forall i :: 0 <= i < |t.professionals| ==>
      !ActiveProfessional(t.professionals[i], r.professionalId.value, r.salonId.value)
    ensures !Decide(t, r, newId).Created?
    ensures StatusOf(Decide(t, r, newId)) in {404, 403}
  {
    ForeignProfessionalRejected(t, r.salonId.value, r.professionalId.value, r.serviceId.value);
    DecideFollowsLookup(t, r, newId);
  }

  lemma ForeignProfessionalRejected(t: Tables, salonId: string, professionalId: string, serviceId: string)
    requires forall i :: 0 <= i < |t.professionals| ==> !ActiveProfessional(t.professionals[i], professionalId, salonId)
    ensures Lookup(t, salonId, professionalId, serviceId).Some?
  {
    MaybeSingleNone(t.professionals, (p: ProfessionalRow) => ActiveProfessional(p, professionalId, salonId));
  }

  /** After validation, a failed lookup is the answer. */
  lemma DecideFollowsLookup(t: Tables, r: Request, newId: string)
    requires ValidateInput(r).None?
    ensures var l := Lookup(t, r.salonId.value, r.professionalId.value, r.serviceId.value);
      l.Some? ==> Decide(t, r, newId) == l.value
  {
  }

  /** Tenant isolation for services: a service outside the salon (or inactive) is never booked. */
  lemma ForeignServiceNeverBooks(t: Tables, r: Request, newId: string)
    requires ValidateInput(r).None?
    requires forall i :: 0 <= i < |t.services| ==> !ActiveService(t.services[i], r.serviceId.value, r.salonId.value)
    ensures !Decide(t, r, newId).Created?
    ensures StatusOf(Decide(t, r, newId)) in {404, 403}
  {
    ForeignServiceRejected(t, r.salonId.value, r.professionalId.value, r.serviceId.value);
    DecideFollowsLookup(t, r, newId);
  }

  lemma ForeignServiceRejected(t: Tables, salonId: string, professionalId: string, serviceId: string)
    requires forall i :: 0 <= i < |t.services| ==> !ActiveService(t.services[i], serviceId, salonId)
    ensures Lookup(t, salonId, professionalId, serviceId).Some?
  {
    MaybeSingleNone(t.services, (s: ServiceRow) => ActiveService(s, serviceId, salonId));
  }

  /** A non-cancelled row for the same salon, professional, date and time means no insert: 409 or an earlier rejection. */
  lemma OccupiedSlotNeverBooks(t: Tables, r: Request, newId: string, k: int)
    requires ValidateInput(r).None?
    requires 0 <= k < |t.appointments|
    requires Blocks(t.appointments[k], r.salonId.value, r.professionalId.value, r.date.value, r.time.value)
    ensures !Decide(t, r, newId).Created?
    ensures Gate(t, r).None? ==> Decide(t, r, newId) == Rejected(409, "This time slot is already booked")
  {
  }

  /** A cancelled row does not change the answer: adding one anywhere at the end is invisible. */
  lemma CancelledRowsDoNotBlock(t: Tables, r: Request, newId: string, c: AppointmentRow)
    requires c.status == "cancelled"
    ensures Decide(t.(appointments := t.appointments + [c]), r, newId) == Decide(t, r, newId)
  {
    var t2 := t.(appointments := t.appointments + [c]);
    GateIgnoresAppointments(t, r, t2.appointments);
    if Gate(t, r).None? {
      var p := (a: AppointmentRow) => Blocks(a, r.salonId.value, r.professionalId.value, r.date.value, r.time.value);
      if Exists(t2.appointments, p) {
        var i :| 0 <= i < |t2.appointments| && p(t2.appointments[i]);
        assert i < |t.appointments| && t.appointments[i] == t2.appointments[i];
      }
      if Exists(t.appointments, p) {
        var i :| 0 <= i < |t.appointments| && p(t.appointments[i]);
        assert t2.appointments[i] == t.appointments[i];
      }
    }
  }

  /** Sending the same request again after a 201 is answered 409. */
  lemma RepeatIsConflict(t: Tables, r: Request, id1: string, id2: string)
    requires Decide(t, r, id1).Created?
    ensures Decide(t.(appointments := t.appointments + [Decide(t, r, id1).row]), r, id2)
            == Rejected(409, "This time slot is already booked")
  {
    var row := Decide(t, r, id1).row;
    var t2 := t.(appointments := t.appointments + [row]);
    GateIgnoresAppointments(t, r, t2.appointments);
    assert t2.appointments[|t.appointments|] == row;
  }

  /** No two non-cancelled rows hold the same salon, professional, date and time. */
  predicate Exclusive(appointments: seq<AppointmentRow>)
  {
    forall i, j :: 0 <= i < j < |appointments| && appointments[i].status != "cancelled" ==>
      !Blocks(appointments[j], appointments[i].salonId, appointments[i].professionalId,
              appointments[i].date, appointments[i].time)
  }

  /** A handled request keeps the appointments table exclusive. */
  lemma DecidePreservesExclusive(t: Tables, r: Request, newId: string)
    requires Exclusive(t.appointments)
    ensures Decide(t, r, newId).Created? ==> Exclusive(t.appointments + [Decide(t, r, newId).row])
  {
    if Decide(t, r, newId).Created? {
      var a := t.appointments + [Decide(t, r, newId).row];
      var p := (x: AppointmentRow) => Blocks(x, r.salonId.value, r.professionalId.value, r.date.value, r.time.value);
      forall i, j | 0 <= i < j < |a| && a[i].status != "cancelled"
        ensures !Blocks(a[j], a[i].salonId, a[i].professionalId, a[i].date, a[i].time)
      {
        if j == |t.appointments| {
          assert a[i] == t.appointments[i];
          assert !p(t.appointments[i]);
        } else {
          assert a[i] == t.appointments[i] && a[j] == t.appointments[j];
        }
      }
    }
  }

  /** On an exclusive table the code as written and the corrected conflict test agree. */
  lemma AsWrittenAgreesWhenExclusive(t: Tables, r: Request, newId: string)
    requires Exclusive(t.appointments)
    ensures DecideAsWritten(t, r, newId) == Decide(t, r, newId)
  {
    if Gate(t, r).None? {
      var p := (a: AppointmentRow) => Blocks(a, r.salonId.value, r.professionalId.value, r.date.value, r.time.value);
      if Exists(t.appointments, p) {
        var k :| 0 <= k < |t.appointments| && p(t.appointments[k]);
        forall i | 0 <= i < |t.appointments| && i != k
          ensures !p(t.appointments[i])
        {
          if i < k && t.appointments[i].status != "cancelled" {
            assert !Blocks(t.appointments[k], t.appointments[i].salonId, t.appointments[i].professionalId,
                           t.appointments[i].date, t.appointments[i].time);
          } else if k < i {
            assert !Blocks(t.appointments[i], t.appointments[k].salonId, t.appointments[k].professionalId,
                           t.appointments[k].date, t.appointments[k].time);
          }
        }
        MaybeSingleUnique(t.appointments, p, k);
      } else {
        MaybeSingleNone(t.appointments, p);
      }
    }
  }

  // ---- the double-booking the code as written lets through ---------------------

  function SampleRequest(): Request
  {
    Request(Some("s1"), Some("p1"), Some("v1"), Some("2024-12-03"), Some("10:00"),
            Some("Maria"), Some("11988887777"))
  }

  function SampleTables(appointments: seq<AppointmentRow>): Tables
  {
    Tables([SalonRow("s1", "u1", None)], [SubscriptionRow("u1", "active")],
           [ProfessionalRow("p1", "s1", "Ana", None, None, None, None, true)],
           [ServiceRow("v1", "s1", "Corte", 5000, 60, None, true)],
           appointments)
  }

  lemma SampleDateShape()
    ensures IsDateShape("2024-12-03")
  {
    var d := "2024-12-03";
    assert d[..4] == "2024" && d[5..7] == "12" && d[8..] == "03";
  }

  lemma SampleNameTrim()
    ensures Trim("Maria") == "Maria" && Utf16Length("Maria") == 5
  {
    assert TrimStart("Maria") == "Maria";
    assert TrimEnd("Maria") == "Maria";
    assert forall i :: 0 <= i < |"Maria"| ==> "Maria"[i] as int <= 0xFFFF;
  }

  lemma SamplePhone()
    ensures PhoneDigitsOk("11988887777")
  {
    assert AllDigits("11988887777");
  }

  lemma SampleTimeShape()
    ensures IsTimeShape("10:00")
  {
  }

  lemma SampleRequestValid()
    ensures ValidateInput(SampleRequest()).None?
  {
    var r := SampleRequest();
    SampleDateShape();
    SampleTimeShape();
    SampleNameTrim();
    SamplePhone();
    assert Given(r.salonId) && Given(r.professionalId) && Given(r.serviceId);
    assert r.date.Some? && IsDateShape(r.date.value);
    assert r.time.Some? && IsTimeShape(r.time.value);
    assert r.clientName.Some? && Utf16Length(Trim(r.clientName.value)) == 5 && Utf16Length(r.clientName.value) == 5;
    assert r.clientPhone.Some? && PhoneDigitsOk(r.clientPhone.value);
  }

  lemma SampleLookups(appointments: seq<AppointmentRow>)
    ensures var t := SampleTables(appointments);
      MaybeSingle(t.salons, (s: SalonRow) => s.id == "s1") == Some(t.salons[0])
      && MaybeSingle(t.subscriptions, (s: SubscriptionRow) => s.userId == "u1") == Some(t.subscriptions[0])
  {
    var t := SampleTables(appointments);
    MaybeSingleUnique(t.salons, (s: SalonRow) => s.id == "s1", 0);
    MaybeSingleUnique(t.subscriptions, (s: SubscriptionRow) => s.userId == "u1", 0);
  }

  lemma SampleMembers(appointments: seq<AppointmentRow>)
    ensures var t := SampleTables(appointments);
      MaybeSingle(t.professionals, (p: ProfessionalRow) => ActiveProfessional(p, "p1", "s1")).Some?
      && MaybeSingle(t.services, (s: ServiceRow) => ActiveService(s, "v1", "s1")).Some?
  {
    var t := SampleTables(appointments);
    MaybeSingleUnique(t.professionals, (p: ProfessionalRow) => ActiveProfessional(p, "p1", "s1"), 0);
    MaybeSingleUnique(t.services, (s: ServiceRow) => ActiveService(s, "v1", "s1"), 0);
  }

  lemma SampleLookupPasses(appointments: seq<AppointmentRow>)
    ensures Lookup(SampleTables(appointments), "s1", "p1", "v1").None?
  {
    SampleLookups(appointments);
    SampleMembers(appointments);
  }

  lemma SampleGatePasses(appointments: seq<AppointmentRow>)
    ensures Gate(SampleTables(appointments), SampleRequest()).None?
  {
    var r := SampleRequest();
    SampleRequestValid();
    SampleLookupPasses(appointments);
    assert r.salonId.value == "s1" && r.professionalId.value == "p1" && r.serviceId.value == "v1";
  }

  /** Two non-cancelled rows for 10:00 on 2024-12-03 with the sample professional. */
  function SampleHeld(): seq<AppointmentRow>
  {
    var held := AppointmentRow("a1", "s1", "p1", "v1", "2024-12-03", "10:00", "Ana", "11911112222", "confirmed");
    [held, held.(id := "a2")]
  }

  function SampleSlot(): AppointmentRow -> bool
  {
    (a: AppointmentRow) => Blocks(a, "s1", "p1", "2024-12-03", "10:00")
  }

  /** Both sample rows are live (not cancelled) and hold the sample request's slot. */
  lemma SampleHeldBlocks()
    ensures SampleSlot()(SampleHeld()[0]) && SampleSlot()(SampleHeld()[1])
    ensures SampleHeld()[0].id != SampleHeld()[1].id
  {
  }

  /**
   * Two non-cancelled rows already hold 10:00 on 2024-12-03 (say, from two
   * requests that raced): the code as written inserts a third.
   */
  lemma AsWrittenDoubleBooks()
    ensures DecideAsWritten(SampleTables(SampleHeld()), SampleRequest(), "a3").Created?
  {
    SampleGatePasses(SampleHeld());
    SampleHeldBlocks();
    MaybeSingleTwo(SampleHeld(), SampleSlot(), 0, 1);
  }

  /** On the same tables the corrected conflict test answers 409. */
  lemma CorrectedRefuses()
    ensures Decide(SampleTables(SampleHeld()), SampleRequest(), "a3") == Rejected(409, "This time slot is already booked")
  {
    SampleGatePasses(SampleHeld());
    SampleHeldBlocks();
    assert SampleSlot()(SampleTables(SampleHeld()).appointments[0]);
  }
}
