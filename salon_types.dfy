/**
 * The records the booking screens and the salon store pass around
 * (professionals, services, appointments, clients, salon settings).
 * Prices are integer cents; theming, texts and social links of the
 * settings are not part of this model except the WhatsApp number.
 */
module SalonTypes {
  import opened Wrappers

  /**
   * An appointment's status. The declared union lists confirmed, cancelled
   * and completed, but the screens also handle "pending" and must cope with
   * any other string a row may hold.
   */
  datatype Status = Pending | Confirmed | Cancelled | Completed | Other(name: string)

  predicate IsKnownStatusName(n: string)
  {
    n == "pending" || n == "confirmed" || n == "cancelled" || n == "completed"
  }

  /** The string stored for a status. */
  function StatusName(s: Status): (n: string)
    ensures !s.Other? ==> IsKnownStatusName(n)
  {
    match s
    case Pending => "pending"
    case Confirmed => "confirmed"
    case Cancelled => "cancelled"
    case Completed => "completed"
    case Other(n) => n
  }

  /** The status a stored string stands for. */
  function ParseStatus(n: string): (s: Status)
    ensures StatusName(s) == n
    ensures s.Other? <==> !IsKnownStatusName(n)
  {
    if n == "pending" then Pending
    else if n == "confirmed" then Confirmed
    else if n == "cancelled" then Cancelled
    else if n == "completed" then Completed
    else Other(n)
  }

  /** A status survives being stored and read back, unless it is an `Other` spelling a known name. */
  lemma StatusRoundTrip(s: Status)
    requires s.Other? ==> !IsKnownStatusName(s.name)
    ensures ParseStatus(StatusName(s)) == s
  {
  }

  /** Opening or working hours: two "HH:MM" strings. */
  datatype Hours = Hours(start: string, end: string)

  datatype Professional = Professional(
    id: string,
    name: string,
    specialty: string,
    photo: string,
    services: seq<string>,
    availableDays: seq<int>,
    availableHours: Hours)

  datatype Service = Service(
    id: string,
    name: string,
    priceCents: int,
    duration: int,
    professionalId: string,
    category: string)

  datatype Appointment = Appointment(
    id: string,
    clientName: string,
    clientPhone: string,
    serviceId: string,
    professionalId: string,
    date: string,
    time: string,
    status: Status,
    createdAt: string)

  /** An appointment before the store gives it an id and a creation stamp. */
  datatype AppointmentDraft = AppointmentDraft(
    clientName: string,
    clientPhone: string,
    serviceId: string,
    professionalId: string,
    date: string,
    time: string,
    status: Status)

  datatype Client = Client(
    id: string,
    name: string,
    phone: string,
    totalVisits: int,
    lastVisit: string,
    appointments: seq<Appointment>)

  datatype SalonSettings = SalonSettings(
    name: string,
    whatsapp: string,
    workingDays: seq<int>,
    openingHours: Hours)

  /** `{ ...draft, id, createdAt }`. */
  function Stamp(d: AppointmentDraft, id: string, createdAt: string): (a: Appointment)
    ensures a.id == id && a.createdAt == createdAt
    ensures a.clientName == d.clientName && a.clientPhone == d.clientPhone
    ensures a.serviceId == d.serviceId && a.professionalId == d.professionalId
    ensures a.date == d.date && a.time == d.time && a.status == d.status
  {
    Appointment(id, d.clientName, d.clientPhone, d.serviceId, d.professionalId, d.date, d.time, d.status, createdAt)
  }

  /** A `Partial<Service>`: the fields an update overwrites. */
  datatype ServicePatch = ServicePatch(
    id: Option<string>,
    name: Option<string>,
    priceCents: Option<int>,
    duration: Option<int>,
    professionalId: Option<string>,
    category: Option<string>)

  /** `{ ...s, ...patch }`. */
  function ApplyServicePatch(s: Service, p: ServicePatch): (r: Service)
    ensures p.id.Some? ==> r.id == p.id.value
    ensures p.id.None? ==> r.id == s.id
    ensures p.name.Some? ==> r.name == p.name.value
    ensures p.name.None? ==> r.name == s.name
    ensures p.priceCents.Some? ==> r.priceCents == p.priceCents.value
    ensures p.priceCents.None? ==> r.priceCents == s.priceCents
    ensures p.duration.Some? ==> r.duration == p.duration.value
    ensures p.duration.None? ==> r.duration == s.duration
    ensures p.professionalId.Some? ==> r.professionalId == p.professionalId.value
    ensures p.professionalId.None? ==> r.professionalId == s.professionalId
    ensures p.category.Some? ==> r.category == p.category.value
    ensures p.category.None? ==> r.category == s.category
  {
    Service(p.id.GetOr(s.id), p.name.GetOr(s.name), p.priceCents.GetOr(s.priceCents),
            p.duration.GetOr(s.duration), p.professionalId.GetOr(s.professionalId),
            p.category.GetOr(s.category))
  }

  /** A `Partial<Professional>`. */
  datatype ProfessionalPatch = ProfessionalPatch(
    id: Option<string>,
    name: Option<string>,
    specialty: Option<string>,
    photo: Option<string>,
    services: Option<seq<string>>,
    availableDays: Option<seq<int>>,
    availableHours: Option<Hours>)

  function ApplyProfessionalPatch(pr: Professional, p: ProfessionalPatch): (r: Professional)
    ensures p.id.Some? ==> r.id == p.id.value
    ensures p.id.None? ==> r.id == pr.id
    ensures p.name.Some? ==> r.name == p.name.value
    ensures p.name.None? ==> r.name == pr.name
    ensures p.specialty.Some? ==> r.specialty == p.specialty.value
    ensures p.specialty.None? ==> r.specialty == pr.specialty
    ensures p.photo.Some? ==> r.photo == p.photo.value
    ensures p.photo.None? ==> r.photo == pr.photo
    ensures p.services.Some? ==> r.services == p.services.value
    ensures p.services.None? ==> r.services == pr.services
    ensures p.availableDays.Some? ==> r.availableDays == p.availableDays.value
    ensures p.availableDays.None? ==> r.availableDays == pr.availableDays
    ensures p.availableHours.Some? ==> r.availableHours == p.availableHours.value
    ensures p.availableHours.None? ==> r.availableHours == pr.availableHours
  {
    Professional(p.id.GetOr(pr.id), p.name.GetOr(pr.name), p.specialty.GetOr(pr.specialty),
                 p.photo.GetOr(pr.photo), p.services.GetOr(pr.services),
                 p.availableDays.GetOr(pr.availableDays), p.availableHours.GetOr(pr.availableHours))
  }

  /** A `Partial<SalonSettings>`. */
  datatype SettingsPatch = SettingsPatch(
    name: Option<string>,
    whatsapp: Option<string>,
    workingDays: Option<seq<int>>,
    openingHours: Option<Hours>)

  function ApplySettingsPatch(s: SalonSettings, p: SettingsPatch): (r: SalonSettings)
    ensures p.name.Some? ==> r.name == p.name.value
    ensures p.name.None? ==> r.name == s.name
    ensures p.whatsapp.Some? ==> r.whatsapp == p.whatsapp.value
    ensures p.whatsapp.None? ==> r.whatsapp == s.whatsapp
    ensures p.workingDays.Some? ==> r.workingDays == p.workingDays.value
    ensures p.workingDays.None? ==> r.workingDays == s.workingDays
    ensures p.openingHours.Some? ==> r.openingHours == p.openingHours.value
    ensures p.openingHours.None? ==> r.openingHours == s.openingHours
  {
    SalonSettings(p.name.GetOr(s.name), p.whatsapp.GetOr(s.whatsapp),
                  p.workingDays.GetOr(s.workingDays), p.openingHours.GetOr(s.openingHours))
  }

  /** The empty patch changes nothing; a patch applied twice is applied once. */
  lemma PatchLaws(s: Service, p: ServicePatch)
    ensures ApplyServicePatch(s, ServicePatch(None, None, None, None, None, None)) == s
    ensures ApplyServicePatch(ApplyServicePatch(s, p), p) == ApplyServicePatch(s, p)
  {
  }

  /**
   * A professional's patch: the empty patch changes nothing, a patch applied
   * twice is applied once, and a second patch wins over the first wherever it
   * gives a field.
   */
  lemma ProfessionalPatchLaws(pr: Professional, p: ProfessionalPatch, q: ProfessionalPatch)
    ensures ApplyProfessionalPatch(pr, ProfessionalPatch(None, None, None, None, None, None, None)) == pr
    ensures ApplyProfessionalPatch(ApplyProfessionalPatch(pr, p), p) == ApplyProfessionalPatch(pr, p)
    ensures ApplyProfessionalPatch(ApplyProfessionalPatch(pr, p), q) ==
      ApplyProfessionalPatch(pr, ProfessionalPatch(
        q.id.Or(p.id), q.name.Or(p.name), q.specialty.Or(p.specialty), q.photo.Or(p.photo),
        q.services.Or(p.services), q.availableDays.Or(p.availableDays), q.availableHours.Or(p.availableHours)))
  {
  }
}
