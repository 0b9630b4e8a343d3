/**
 * The admin dialog that creates or edits a professional: the form it opens
 * with, the weekday and service checkboxes, and the submit that validates
 * the form, writes the professional row and replaces the professional's
 * service links. The photo upload is not modelled.
 */
module ProfessionalForm {
  import opened Wrappers
  import opened Text
  import opened Seqs
  import opened SalonTypes
  import opened WeekDayList
  import opened Db

  datatype ProfessionalFormData = ProfessionalFormData(
    name: string,
    specialty: string,
    photo: string,
    availableDays: seq<int>,
    availableHoursStart: string,
    availableHoursEnd: string,
    selectedServices: seq<string>)

  const Placeholder := "/placeholder.svg"

  /** The form as the dialog opens it: the edited professional, or the defaults for a new one. */
  function OpenForm(professional: Option<Professional>): (f: ProfessionalFormData)
    ensures professional.None? ==> MissingNameOrSpecialty(f) && f.selectedServices == []
    ensures professional.Some? ==>
      var p := professional.value;
      f.name == p.name && f.specialty == p.specialty && f.photo == p.photo && f.availableDays == p.availableDays
      && Hours(f.availableHoursStart, f.availableHoursEnd) == p.availableHours && f.selectedServices == p.services
  {
    match professional
    case Some(p) =>
      ProfessionalFormData(p.name, p.specialty, p.photo, p.availableDays,
                           p.availableHours.start, p.availableHours.end, p.services)
    case None =>
      ProfessionalFormData("", "", Placeholder, [1, 2, 3, 4, 5], "09:00", "18:00", [])
  }

  /**
   * A new professional starts on Monday to Friday, 09:00 to 18:00, with the
   * placeholder photo and no services; the days are already in the order
   * the day toggle keeps, so ticking a day twice gives them back.
   */
  lemma NewFormDefaults(day: int)
    ensures var f := OpenForm(None);
      f.availableDays == [1, 2, 3, 4, 5] && f.selectedServices == [] &&
      f.availableHoursStart == "09:00" && f.availableHoursEnd == "18:00" && f.photo == Placeholder &&
      StrictlySorted(f.availableDays) &&
      ToggleDay(ToggleDay(f.availableDays, day), day) == f.availableDays
  {
    Weekdays(day);
  }

  /** Monday to Friday are in ascending order, and toggling a day twice gives them back. */
  lemma Weekdays(day: int)
    ensures StrictlySorted([1, 2, 3, 4, 5])
    ensures ToggleDay(ToggleDay([1, 2, 3, 4, 5], day), day) == [1, 2, 3, 4, 5]
  {
    var days := [1, 2, 3, 4, 5];
    WeekDaysAscend(days);
    ToggleTwice(days, day);
  }

  /** `handleDayToggle`: the same rule as the salon's working days. */
  function ToggleFormDay(f: ProfessionalFormData, day: int): (r: ProfessionalFormData)
    ensures r == f.(availableDays := r.availableDays)
    ensures day in f.availableDays ==>
      forall x :: x in r.availableDays <==> x in f.availableDays && x != day
    ensures day !in f.availableDays ==>
      multiset(r.availableDays) == multiset(f.availableDays) + multiset{day} && Sorted(r.availableDays)
  {
    if day in f.availableDays then
      ToggleRemoves(f.availableDays, day);
      f.(availableDays := ToggleDay(f.availableDays, day))
    else
      ToggleAdds(f.availableDays, day);
      f.(availableDays := ToggleDay(f.availableDays, day))
  }

  /** On a strictly sorted list, ticking a day twice leaves the form as it was. */
  lemma ToggleFormDayTwice(f: ProfessionalFormData, day: int)
    requires StrictlySorted(f.availableDays)
    ensures ToggleFormDay(ToggleFormDay(f, day), day) == f
  {
    ToggleTwice(f.availableDays, day);
  }

  function Unequal(id: string): string -> bool
  {
    x => x != id
  }

  /** `handleServiceToggle`: a ticked service is removed, an unticked one appended at the end, unsorted. */
  function ToggleService(f: ProfessionalFormData, serviceId: string): (r: ProfessionalFormData)
    ensures r == f.(selectedServices := r.selectedServices)
    ensures serviceId in r.selectedServices <==> serviceId !in f.selectedServices
    ensures forall x :: x != serviceId ==> (x in r.selectedServices <==> x in f.selectedServices)
  {
    var s := f.selectedServices;
    if serviceId in s then
      f.(selectedServices := Filter(s, Unequal(serviceId)))
    else
      f.(selectedServices := s + [serviceId])
  }

  /** Ticking an unticked service and unticking it again gives the list back. */
  lemma ToggleServiceTwiceAbsent(f: ProfessionalFormData, serviceId: string)
    requires serviceId !in f.selectedServices
    ensures ToggleService(ToggleService(f, serviceId), serviceId) == f
  {
    var s := f.selectedServices;
    FilterAppend(s, [serviceId], Unequal(serviceId));
    FilterAll(s, Unequal(serviceId));
    FilterNone([serviceId], Unequal(serviceId));
  }

  /**
   * Unticking a ticked service and ticking it again keeps the same set of
   * services but moves that one to the end.
   */
  lemma ToggleServiceTwicePresent(f: ProfessionalFormData, serviceId: string)
    requires serviceId in f.selectedServices
    ensures var r := ToggleService(ToggleService(f, serviceId), serviceId).selectedServices;
      r == Filter(f.selectedServices, Unequal(serviceId)) + [serviceId] &&
      r[|r| - 1] == serviceId &&
      forall x :: x in r <==> x in f.selectedServices
  {
  }

  // ---- submit ------------------------------------------------------------------

  datatype SaveOutcome = NoSalon | MissingFields | Saved(professionalId: string)

  /** The form is refused when the trimmed name or the trimmed specialty is empty. */
  predicate MissingNameOrSpecialty(f: ProfessionalFormData)
    ensures MissingNameOrSpecialty(f) <==>
      (forall k :: 0 <= k < |f.name| ==> IsJsSpace(f.name[k]))
      || (forall k :: 0 <= k < |f.specialty| ==> IsJsSpace(f.specialty[k]))
  {
    TrimEmptyIffSpace(f.name);
    TrimEmptyIffSpace(f.specialty);
    Trim(f.name) == "" || Trim(f.specialty) == ""
  }

  /** The dialog edits an existing row (`isEditing && professionalId`). */
  predicate Updating(editing: Option<Professional>)
  {
    editing.Some? && editing.value.id != ""
  }

  /** `photo || null`: an empty photo is stored as null. */
  function PhotoColumn(photo: string): (c: Option<string>)
    ensures c.Some? <==> photo != ""
    ensures c.Some? ==> c.value == photo
  {
    if photo == "" then None else Some(photo)
  }

  function HoursColumn(f: ProfessionalFormData): HoursRow
  {
    HoursRow(Some(f.availableHoursStart), Some(f.availableHoursEnd))
  }

  /** The inserted row: trimmed name and specialty, the form's days and hours, active. */
  function NewRow(id: string, salonId: string, f: ProfessionalFormData): (row: ProfessionalRow)
    ensures row.id == id && row.salonId == salonId && row.isActive
    ensures !MissingNameOrSpecialty(f) ==>
      row.name != "" && row.specialty.Some? && row.specialty.value != ""
      && !IsJsSpace(row.name[0]) && !IsJsSpace(row.name[|row.name| - 1])
    ensures row.photo.Some? <==> f.photo != ""
    ensures row.availableDays == Some(f.availableDays)
  {
    ProfessionalRow(id, salonId, Trim(f.name), Some(Trim(f.specialty)), PhotoColumn(f.photo),
                    Some(f.availableDays), Some(HoursColumn(f)), true)
  }

  /** The update, scoped by id and salon; it leaves `is_active` as it was. */
  function EditRow(id: string, salonId: string, f: ProfessionalFormData): (edit: ProfessionalRow -> ProfessionalRow)
    ensures forall r: ProfessionalRow :: r.id != id || r.salonId != salonId ==> edit(r) == r
    ensures forall r: ProfessionalRow :: r.id == id && r.salonId == salonId ==> edit(r) == NewRow(id, salonId, f).(isActive := r.isActive)
  {
    (r: ProfessionalRow) =>
      if r.id == id && r.salonId == salonId then
        r.(name := Trim(f.name), specialty := Some(Trim(f.specialty)), photo := PhotoColumn(f.photo),
           availableDays := Some(f.availableDays), availableHours := Some(HoursColumn(f)))
      else r
  }

  /** The edited row of this salon now holds the form; rows of other salons are untouched. */
  lemma EditRowScope(r: ProfessionalRow, id: string, salonId: string, f: ProfessionalFormData)
    ensures var e := EditRow(id, salonId, f)(r);
      (r.id == id && r.salonId == salonId ==>
         e == NewRow(id, salonId, f).(isActive := r.isActive)) &&
      (r.salonId != salonId ==> e == r)
  {
  }

  /** `handleSubmit` against the database; `freshId` is the id the insert returns. */
  method Save(db: Database, salonId: Option<string>, editing: Option<Professional>,
              f: ProfessionalFormData, freshId: string) returns (outcome: SaveOutcome)
    modifies db
    ensures outcome == NoSalon <==> !HasSalon(salonId)
    ensures outcome == MissingFields <==> HasSalon(salonId) && MissingNameOrSpecialty(f)
    ensures !outcome.Saved? ==> db.professionals == old(db.professionals) && db.links == old(db.links)
    ensures outcome.Saved? ==>
      outcome.professionalId == (if Updating(editing) then editing.value.id else freshId)
    ensures outcome.Saved? && Updating(editing) ==>
      db.professionals == Map(old(db.professionals), EditRow(outcome.professionalId, salonId.value, f))
    ensures outcome.Saved? && !Updating(editing) ==>
      db.professionals == old(db.professionals) + [NewRow(freshId, salonId.value, f)]
    ensures outcome.Saved? ==>
      db.links == if outcome.professionalId == "" then old(db.links)
                  else ReplaceProfessionalLinks(old(db.links), outcome.professionalId, f.selectedServices)
    ensures db.salons == old(db.salons) && db.subscriptions == old(db.subscriptions)
    ensures db.services == old(db.services) && db.appointments == old(db.appointments)
  {
    if !HasSalon(salonId) {
      return NoSalon;
    }
    if MissingNameOrSpecialty(f) {
      return MissingFields;
    }
    var professionalId := WriteProfessional(db, salonId.value, editing, f, freshId);
    outcome := Saved(professionalId);
  }

  /** The writes of a validated submit: the row update or insert, then the link replacement. */
  method WriteProfessional(db: Database, salonId: string, editing: Option<Professional>,
                           f: ProfessionalFormData, freshId: string) returns (professionalId: string)
    modifies db
    ensures professionalId == (if Updating(editing) then editing.value.id else freshId)
    ensures Updating(editing) ==>
      db.professionals == Map(old(db.professionals), EditRow(professionalId, salonId, f))
    ensures !Updating(editing) ==> db.professionals == old(db.professionals) + [NewRow(freshId, salonId, f)]
    ensures db.links == if professionalId == "" then old(db.links)
                        else ReplaceProfessionalLinks(old(db.links), professionalId, f.selectedServices)
    ensures db.salons == old(db.salons) && db.subscriptions == old(db.subscriptions)
    ensures db.services == old(db.services) && db.appointments == old(db.appointments)
  {
    professionalId := WriteRow(db, salonId, editing, f, freshId);
    if professionalId != "" {
      WriteLinks(db, professionalId, f.selectedServices);
    }
  }

  /** The row write: the update of the edited professional, or the insert of a new one. */
  method WriteRow(db: Database, salonId: string, editing: Option<Professional>,
                  f: ProfessionalFormData, freshId: string) returns (professionalId: string)
    modifies db
    ensures professionalId == (if Updating(editing) then editing.value.id else freshId)
    ensures Updating(editing) ==>
      db.professionals == Map(old(db.professionals), EditRow(professionalId, salonId, f))
    ensures !Updating(editing) ==> db.professionals == old(db.professionals) + [NewRow(freshId, salonId, f)]
    ensures db.links == old(db.links)
    ensures db.salons == old(db.salons) && db.subscriptions == old(db.subscriptions)
    ensures db.services == old(db.services) && db.appointments == old(db.appointments)
  {
    if Updating(editing) {
      professionalId := editing.value.id;
      db.professionals := Map(db.professionals, EditRow(professionalId, salonId, f));
    } else {
      db.professionals := db.professionals + [NewRow(freshId, salonId, f)];
      professionalId := freshId;
    }
  }

  /** The link replacement: the professional's links deleted, then one inserted per ticked service. */
  method WriteLinks(db: Database, professionalId: string, serviceIds: seq<string>)
    modifies db
    ensures db.links == ReplaceProfessionalLinks(old(db.links), professionalId, serviceIds)
    ensures db.salons == old(db.salons) && db.subscriptions == old(db.subscriptions)
    ensures db.professionals == old(db.professionals)
    ensures db.services == old(db.services) && db.appointments == old(db.appointments)
  {
    db.links := Filter(db.links, Not(ForProfessional(professionalId)));
    db.links := db.links + Map(serviceIds, LinkFrom(professionalId));
  }

  /**
   * After a save the professional's service links are exactly the ticked
   * services, in the order they were ticked, and every other professional
   * keeps its links.
   */
  lemma SavedLinks(links: seq<LinkRow>, professionalId: string, f: ProfessionalFormData, other: string)
    requires professionalId != "" && other != professionalId
    ensures ServiceIdsOf(ReplaceProfessionalLinks(links, professionalId, f.selectedServices), professionalId)
              == f.selectedServices
    ensures ServiceIdsOf(ReplaceProfessionalLinks(links, professionalId, f.selectedServices), other)
              == ServiceIdsOf(links, other)
  {
    ReplaceProfessionalLinksExact(links, professionalId, f.selectedServices);
    ReplaceProfessionalLinksOthers(links, professionalId, f.selectedServices, other);
  }
}
