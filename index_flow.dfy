/**
 * The demo landing page's booking wizard: a step machine over the salon
 * store whose handlers choose a service, a professional, a date and a
 * time, go back one step, submit the client's details and start over.
 */
module IndexFlow {
  import opened Wrappers
  import opened SalonTypes
  import opened SalonContext

  datatype Step = Landing | ServiceStep | ProfessionalStep | DateStep | TimeStep | FormStep | SuccessStep

  /** Where each step sits in the wizard, landing first. */
  function Position(s: Step): nat
  {
    match s
    case Landing => 0
    case ServiceStep => 1
    case ProfessionalStep => 2
    case DateStep => 3
    case TimeStep => 4
    case FormStep => 5
    case SuccessStep => 6
  }

  /**
   * The step `handleBack` moves to; from the date step it returns to the
   * professional list only when there was more than one professional to
   * choose from.
   */
  function PreviousStep(s: Step, available: nat): Step
  {
    match s
    case ServiceStep => Landing
    case ProfessionalStep => ServiceStep
    case DateStep => if available > 1 then ProfessionalStep else ServiceStep
    case TimeStep => DateStep
    case FormStep => TimeStep
    case _ => s
  }

  /**
   * Back always moves strictly towards the landing page, except on the
   * landing and success pages, where it does nothing; it skips the
   * professional list exactly when that list was skipped on the way in.
   */
  lemma BackMovesBackward(s: Step, available: nat)
    ensures s == Landing || s == SuccessStep <==> PreviousStep(s, available) == s
    ensures s != Landing && s != SuccessStep ==> Position(PreviousStep(s, available)) < Position(s)
    ensures s == DateStep ==> (PreviousStep(s, available) == ServiceStep <==> available <= 1)
  {
  }

  /** A text selection counts as made only when present and non-empty (`!selectedDate`). */
  predicate Filled(x: Option<string>)
  {
    x.Some? && x.value != ""
  }

  class BookingWizard {
    const store: SalonStore
    var step: Step
    var selectedService: Option<Service>
    var selectedProfessional: Option<Professional>
    var selectedDate: Option<string>
    var selectedTime: Option<string>
    var clientName: string
    var availableProfessionals: seq<Professional>

    /**
     * Each step past the service choice has the selections made before it:
     * the date picker a service and a professional, the time picker also a
     * date, the form also a time, and the success page all four filled in.
     */
    predicate Valid()
      reads this
    {
      (step == ProfessionalStep ==> selectedService.Some?) &&
      (step in {DateStep, TimeStep, FormStep} ==> selectedService.Some? && selectedProfessional.Some?) &&
      (step in {TimeStep, FormStep} ==> selectedDate.Some?) &&
      (step == FormStep ==> selectedTime.Some?) &&
      (step == SuccessStep ==> selectedService.Some? && selectedProfessional.Some? &&
                               Filled(selectedDate) && Filled(selectedTime))
    }

    /** The page opens on the landing step with nothing chosen. */
    constructor (store: SalonStore)
      ensures this.store == store && step == Landing
      ensures selectedService.None? && selectedProfessional.None?
      ensures selectedDate.None? && selectedTime.None?
      ensures clientName == "" && availableProfessionals == []
      ensures Valid()
    {
      this.store := store;
      step := Landing;
      selectedService := None;
      selectedProfessional := None;
      selectedDate := None;
      selectedTime := None;
      clientName := "";
      availableProfessionals := [];
    }

    /** The landing page's call to action opens the service list. */
    method Start()
      requires Valid() && step == Landing
      modifies this
      ensures Valid() && step == ServiceStep
      ensures selectedService == old(selectedService) && selectedProfessional == old(selectedProfessional)
      ensures selectedDate == old(selectedDate) && selectedTime == old(selectedTime)
      ensures clientName == old(clientName) && availableProfessionals == old(availableProfessionals)
    {
      step := ServiceStep;
    }

    /**
     * `handleServiceSelect`: the eligible professionals are looked up; a
     * single one is chosen on the client's behalf and the wizard jumps to
     * the date, otherwise it shows the list (keeping any earlier choice).
     */
    method SelectService(service: Service)
      requires Valid()
      modifies this
      ensures Valid()
      ensures selectedService == Some(service)
      ensures availableProfessionals == ProfessionalsForService(store.services, store.professionals, service.id)
      ensures |availableProfessionals| == 1 ==>
        step == DateStep && selectedProfessional == Some(availableProfessionals[0])
      ensures |availableProfessionals| != 1 ==>
        step == ProfessionalStep && selectedProfessional == old(selectedProfessional)
      ensures selectedDate == old(selectedDate) && selectedTime == old(selectedTime) && clientName == old(clientName)
    {
      selectedService := Some(service);
      var profs := ProfessionalsForService(store.services, store.professionals, service.id);
      availableProfessionals := profs;
      if |profs| == 1 {
        selectedProfessional := Some(profs[0]);
        step := DateStep;
      } else {
        step := ProfessionalStep;
      }
    }

    /** `handleProfessionalSelect`, from the professional list. */
    method SelectProfessional(professional: Professional)
      requires Valid() && step == ProfessionalStep
      modifies this
      ensures Valid() && step == DateStep && selectedProfessional == Some(professional)
      ensures selectedService == old(selectedService) && selectedDate == old(selectedDate)
      ensures selectedTime == old(selectedTime) && clientName == old(clientName)
      ensures availableProfessionals == old(availableProfessionals)
    {
      selectedProfessional := Some(professional);
      step := DateStep;
    }

    /** `handleDateSelect`, from the calendar. */
    method SelectDate(date: string)
      requires Valid() && step == DateStep
      modifies this
      ensures Valid() && step == TimeStep && selectedDate == Some(date)
      ensures selectedService == old(selectedService) && selectedProfessional == old(selectedProfessional)
      ensures selectedTime == old(selectedTime) && clientName == old(clientName)
      ensures availableProfessionals == old(availableProfessionals)
    {
      selectedDate := Some(date);
      step := TimeStep;
    }

    /** `handleTimeSelect`, from the slot list. */
    method SelectTime(time: string)
      requires Valid() && step == TimeStep
      modifies this
      ensures Valid() && step == FormStep && selectedTime == Some(time)
      ensures selectedService == old(selectedService) && selectedProfessional == old(selectedProfessional)
      ensures selectedDate == old(selectedDate) && clientName == old(clientName)
      ensures availableProfessionals == old(availableProfessionals)
    {
      selectedTime := Some(time);
      step := FormStep;
    }

    /**
     * `handleFormSubmit`: unless service, professional, date and time are
     * all chosen nothing happens; otherwise a confirmed appointment for them
     * is added to the store and the success page is shown. `newId` and
     * `createdAt` are what the store would generate.
     */
    method SubmitForm(name: string, phone: string, newId: string, createdAt: string)
      requires Valid() && step == FormStep
      modifies this, store
      ensures Valid()
      ensures var ready := old(selectedService).Some? && old(selectedProfessional).Some? &&
                           Filled(old(selectedDate)) && Filled(old(selectedTime));
        (!ready ==> step == old(step) && clientName == old(clientName) &&
                    store.appointments == old(store.appointments) && store.clients == old(store.clients)) &&
        (ready ==>
          var apt := Stamp(AppointmentDraft(name, phone, old(selectedService).value.id,
                                            old(selectedProfessional).value.id, old(selectedDate).value,
                                            old(selectedTime).value, Confirmed), newId, createdAt);
          step == SuccessStep && clientName == name &&
          store.appointments == old(store.appointments) + [apt] &&
          store.clients == RecordVisit(old(store.clients), apt, newId))
      ensures selectedService == old(selectedService) && selectedProfessional == old(selectedProfessional)
      ensures selectedDate == old(selectedDate) && selectedTime == old(selectedTime)
      ensures availableProfessionals == old(availableProfessionals)
      ensures store.professionals == old(store.professionals) && store.services == old(store.services)
      ensures store.settings == old(store.settings)
    {
      if selectedService.None? || selectedProfessional.None? || !Filled(selectedDate) || !Filled(selectedTime) {
        return;
      }
      clientName := name;
      var draft := AppointmentDraft(name, phone, selectedService.value.id, selectedProfessional.value.id,
                                    selectedDate.value, selectedTime.value, Confirmed);
      store.AddAppointment(draft, newId, createdAt);
      step := SuccessStep;
    }

    /** `handleNewBooking`: every selection cleared and back to the landing page. */
    method NewBooking()
      modifies this
      ensures Valid() && step == Landing
      ensures selectedService.None? && selectedProfessional.None?
      ensures selectedDate.None? && selectedTime.None?
      ensures clientName == "" && availableProfessionals == []
    {
      selectedService := None;
      selectedProfessional := None;
      selectedDate := None;
      selectedTime := None;
      clientName := "";
      availableProfessionals := [];
      step := Landing;
    }

    /**
     * `handleBack`: one step back, clearing the choice made on the step
     * being left (both choices when the professional list was skipped);
     * the landing and success pages stay as they are.
     */
    method Back()
      requires Valid()
      modifies this
      ensures Valid()
      ensures step == PreviousStep(old(step), |old(availableProfessionals)|)
      ensures old(step) == ProfessionalStep ==>
        selectedService.None? && availableProfessionals == [] && selectedProfessional == old(selectedProfessional)
      ensures old(step) == DateStep ==>
        selectedProfessional.None? && availableProfessionals == old(availableProfessionals) &&
        (if |old(availableProfessionals)| > 1 then selectedService == old(selectedService) else selectedService.None?)
      ensures old(step) == TimeStep ==> selectedDate.None? && selectedTime == old(selectedTime)
      ensures old(step) == FormStep ==> selectedTime.None? && selectedDate == old(selectedDate)
      ensures old(step) in {Landing, ServiceStep, SuccessStep} ==>
        selectedService == old(selectedService) && selectedProfessional == old(selectedProfessional) &&
        selectedDate == old(selectedDate) && selectedTime == old(selectedTime) &&
        availableProfessionals == old(availableProfessionals)
      ensures old(step) in {TimeStep, FormStep} ==>
        selectedService == old(selectedService) && selectedProfessional == old(selectedProfessional) &&
        availableProfessionals == old(availableProfessionals)
      ensures old(step) in {ProfessionalStep, DateStep} ==>
        selectedDate == old(selectedDate) && selectedTime == old(selectedTime)
      ensures clientName == old(clientName)
    {
      match step
      case ServiceStep =>
        step := Landing;
      case ProfessionalStep =>
        step := ServiceStep;
        selectedService := None;
        availableProfessionals := [];
      case DateStep =>
        if |availableProfessionals| > 1 {
          step := ProfessionalStep;
          selectedProfessional := None;
        } else {
          step := ServiceStep;
          selectedService := None;
          selectedProfessional := None;
        }
      case TimeStep =>
        step := DateStep;
        selectedDate := None;
      case FormStep =>
        step := TimeStep;
        selectedTime := None;
      case _ =>
    }
  }
}
