/**
 * The salon settings screen: the form filled from the saved settings, the
 * working-day checkboxes and the submit that writes the form back into the
 * salon store. Theme, logo, texts, social links and stats are not modelled.
 */
module SettingsForm {
  import opened Wrappers
  import opened SalonTypes
  import opened WeekDayList
  import SalonContext

  /** The form fields that reach the modelled settings. */
  datatype SettingsFormData = SettingsFormData(
    name: string,
    whatsapp: string,
    openingStart: string,
    openingEnd: string,
    workingDays: seq<int>)

  /** The form as filled from the saved settings (a saved list is always present, so no default applies). */
  function FormFromSettings(s: SalonSettings): (f: SettingsFormData)
    ensures Hours(f.openingStart, f.openingEnd) == s.openingHours && f.workingDays == s.workingDays
    ensures ApplySettingsPatch(s, SubmitPatch(f)) == s
  {
    SettingsFormData(s.name, s.whatsapp, s.openingHours.start, s.openingHours.end, s.workingDays)
  }

  /** `handleWorkingDayToggle`: a ticked day is removed, an unticked one is added and the list sorted. */
  function ToggleWorkingDay(f: SettingsFormData, day: int): (r: SettingsFormData)
    ensures r == f.(workingDays := r.workingDays)
    ensures day in f.workingDays ==>
      forall x :: x in r.workingDays <==> x in f.workingDays && x != day
    ensures day !in f.workingDays ==>
      multiset(r.workingDays) == multiset(f.workingDays) + multiset{day} && Sorted(r.workingDays)
  {
    if day in f.workingDays then
      ToggleRemoves(f.workingDays, day);
      f.(workingDays := ToggleDay(f.workingDays, day))
    else
      ToggleAdds(f.workingDays, day);
      f.(workingDays := ToggleDay(f.workingDays, day))
  }

  /** On a strictly sorted list of weekdays, ticking a box twice leaves the form as it was. */
  lemma ToggleWorkingDayTwice(f: SettingsFormData, day: int)
    requires StrictlySorted(f.workingDays)
    ensures ToggleWorkingDay(ToggleWorkingDay(f, day), day) == f
  {
    ToggleTwice(f.workingDays, day);
  }

  /**
   * Ticking a weekday keeps a list of weekdays a numerically ascending list of
   * weekdays without repeats.
   */
  lemma ToggleWorkingDayAscends(f: SettingsFormData, day: int)
    requires 0 <= day <= 6
    requires forall i :: 0 <= i < |f.workingDays| ==> 0 <= f.workingDays[i] <= 6
    requires forall i :: 0 < i < |f.workingDays| ==> f.workingDays[i - 1] < f.workingDays[i]
    ensures var r := ToggleWorkingDay(f, day).workingDays;
      (forall i :: 0 <= i < |r| ==> 0 <= r[i] <= 6) &&
      (forall i :: 0 < i < |r| ==> r[i - 1] < r[i])
  {
    var r := ToggleWorkingDay(f, day).workingDays;
    WeekDaysAscend(f.workingDays);
    ToggleKeepsStrictlySorted(f.workingDays, day);
    forall i | 0 <= i < |r|
      ensures 0 <= r[i] <= 6
    {
      assert r[i] in multiset(r);
      if day in f.workingDays {
        assert r[i] in f.workingDays;
      } else {
        assert r[i] in multiset(f.workingDays) + multiset{day};
        assert r[i] == day || r[i] in f.workingDays;
      }
    }
    WeekDaysAscend(r);
  }

  /** `handleSubmit`: the partial settings handed to `updateSettings`. */
  function SubmitPatch(f: SettingsFormData): (p: SettingsPatch)
    ensures p.name.Some? && p.whatsapp.Some? && p.workingDays.Some? && p.openingHours.Some?
    ensures forall s, t :: ApplySettingsPatch(s, p) == ApplySettingsPatch(t, p)
  {
    SettingsPatch(Some(f.name), Some(f.whatsapp), Some(f.workingDays),
                  Some(Hours(f.openingStart, f.openingEnd)))
  }

  /**
   * Whatever was saved before, the saved settings afterwards are the form:
   * the two opening fields packed into one `openingHours` and the working
   * days passed on as they are.
   */
  lemma SubmitSavesForm(s: SalonSettings, f: SettingsFormData)
    ensures var r := ApplySettingsPatch(s, SubmitPatch(f));
      r.openingHours == Hours(f.openingStart, f.openingEnd) &&
      r.workingDays == f.workingDays &&
      FormFromSettings(r) == f
  {
  }

  /** Submitting the untouched form saves the settings it was filled from. */
  lemma SubmitUntouched(s: SalonSettings)
    ensures ApplySettingsPatch(s, SubmitPatch(FormFromSettings(s))) == s
  {
  }

  /** The submit as it runs against the store: only the settings change. */
  method Submit(store: SalonContext.SalonStore, f: SettingsFormData)
    modifies store
    ensures store.settings == ApplySettingsPatch(old(store.settings), SubmitPatch(f))
    ensures store.settings.openingHours == Hours(f.openingStart, f.openingEnd)
    ensures store.settings.workingDays == f.workingDays
    ensures store.professionals == old(store.professionals) && store.services == old(store.services)
    ensures store.appointments == old(store.appointments) && store.clients == old(store.clients)
  {
    store.UpdateSettings(SubmitPatch(f));
  }
}
