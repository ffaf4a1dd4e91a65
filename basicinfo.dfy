/** The basic-information step of the wizard (step 1): a form that starts from
    fixed defaults overridden by whatever the store already holds, is edited
    field by field, and is written back to the store as a partial update. */
module BasicInfoPage {

  import opened Wrappers
  import opened Values
  import opened Lists
  import opened Store

  /** The keys of a basic-information record. */
  const BasicInfoFields: seq<string> := [
    "caseCode", "assessor", "caseName", "visitDate", "planType", "interviewSubject",
    "birthday", "gender", "cmsLevel", "ltcBenefit", "maritalStatus", "disabilityICF",
    "medicalHistory", "medicalHistoryOther", "problemNeeds", "gpsLocation", "visitTimestamp"]

  /** The default form. `today` is the date part of the current instant and
      `now` the instant itself, both in ISO 8601 form; the clock is read by
      the caller. */
  function FormDefaults(today: string, now: string): Record
  {
    map[
      "caseCode" := Str(""),
      "assessor" := Str(""),
      "caseName" := Str(""),
      "visitDate" := Str(today),
      "planType" := Str("AA01"),
      "interviewSubject" := Str(""),
      "birthday" := Str(""),
      "gender" := Str("male"),
      "cmsLevel" := Num(2),
      "ltcBenefit" := Str("type1"),
      "maritalStatus" := Str("married"),
      "disabilityICF" := Str("none"),
      "medicalHistory" := Arr([]),
      "medicalHistoryOther" := Str(""),
      "problemNeeds" := Str(""),
      "gpsLocation" := Str(""),
      "visitTimestamp" := Str(now)]
  }

  /** The defaults fill exactly the basic-information fields. */
  lemma FormDefaultsCoverFields(today: string, now: string)
    ensures forall k :: k in FormDefaults(today, now) <==> k in BasicInfoFields
  {
  }

  /** The default answers: an initial assessment (AA01), CMS level 2, male,
      married, first benefit type, no disability, no medical history, the visit
      dated today and stamped now. */
  lemma FormDefaultsFacts(today: string, now: string)
    ensures var d := FormDefaults(today, now);
      && d["planType"] == Str("AA01") && d["cmsLevel"] == Num(2) && d["gender"] == Str("male")
      && d["maritalStatus"] == Str("married") && d["ltcBenefit"] == Str("type1")
      && d["disabilityICF"] == Str("none") && d["medicalHistory"] == Arr([])
      && d["visitDate"] == Str(today) && d["visitTimestamp"] == Str(now)
  {
  }

  /** The form the page opens with: `{ ...defaults, ...basicInfo }`, so every
      field the store already holds wins over its default. */
  function OpeningForm(today: string, now: string, stored: Record): (r: Record)
    ensures r.Keys == FormDefaults(today, now).Keys + stored.Keys
    ensures forall k :: k in stored ==> r[k] == stored[k]
    ensures forall k :: k in FormDefaults(today, now) && k !in stored ==> r[k] == FormDefaults(today, now)[k]
  {
    Merge(FormDefaults(today, now), stored)
  }

  /** With an empty store the page opens on the defaults. */
  lemma FreshStoreOpensOnDefaults(today: string, now: string)
    ensures OpeningForm(today, now, Initial.basicInfo) == FormDefaults(today, now)
  {
    MergeEmpty(FormDefaults(today, now));
  }

  /** `handleInputChange(field, value)`: `{ ...prev, [field]: value }`. */
  function SetField(form: Record, field: string, value: Value): (r: Record)
    ensures r.Keys == form.Keys + {field}
    ensures r[field] == value
    ensures forall k :: k in form && k != field ==> r[k] == form[k]
  {
    Merge(form, map[field := value])
  }

  /** `prev.medicalHistory || []`: the stored list, or the empty list when the
      field is missing or `null`. */
  function History(form: Record): seq<Value>
  {
    match Field(form, "medicalHistory")
    case Some(Arr(items)) => items
    case _ => []
  }

  /** `handleMedicalHistoryChange(option, checked)`: ticking appends the
      option to the history, clearing drops every copy of it; every other
      field is kept. */
  function ToggleHistory(form: Record, option: string, checked: bool): (r: Record)
    ensures r.Keys == form.Keys + {"medicalHistory"}
    ensures forall k :: k in form && k != "medicalHistory" ==> r[k] == form[k]
    ensures r["medicalHistory"].Arr?
    ensures Str(option) in r["medicalHistory"].items <==> checked
    ensures forall v :: v != Str(option) ==> (v in r["medicalHistory"].items <==> v in History(form))
  {
    var current := History(form);
    SetField(form, "medicalHistory", Arr(if checked then current + [Str(option)] else Without(current, Str(option))))
  }

  /** Ticking a disease that was not in the history and clearing it again
      restores the history, and leaves a form that had a list unchanged. */
  lemma TickThenClearHistory(form: Record, option: string)
    requires Str(option) !in History(form)
    ensures History(ToggleHistory(ToggleHistory(form, option, true), option, false)) == History(form)
    ensures "medicalHistory" in form && form["medicalHistory"].Arr? ==>
              ToggleHistory(ToggleHistory(form, option, true), option, false) == form
  {
    var h, o := History(form), Str(option);
    var ticked := ToggleHistory(form, option, true);
    HistoryOfToggle(form, option, true);
    HistoryOfToggle(ticked, option, false);
    WithoutAppend(h, o);
    WithoutAbsent(h, o);
    if "medicalHistory" in form && form["medicalHistory"].Arr? {
      ToggleKeepingHistory(ticked, form, option);
    }
  }

  /** Toggling sets the history to the ticked or cleared list. */
  lemma HistoryOfToggle(form: Record, option: string, checked: bool)
    ensures History(ToggleHistory(form, option, checked))
         == if checked then History(form) + [Str(option)] else Without(History(form), Str(option))
  {
  }

  /** Clearing an option from `ticked`, which agrees with `form` outside the
      history, gives `form` back when it leaves `form`'s own history list. */
  lemma ToggleKeepingHistory(ticked: Record, form: Record, option: string)
    requires "medicalHistory" in form && form["medicalHistory"].Arr?
    requires ticked.Keys == form.Keys
    requires forall k :: k in form && k != "medicalHistory" ==> ticked[k] == form[k]
    requires History(ToggleHistory(ticked, option, false)) == History(form)
    ensures ToggleHistory(ticked, option, false) == form
  {
    var back := ToggleHistory(ticked, option, false);
    assert back["medicalHistory"] == Arr(History(back));
    assert form["medicalHistory"] == Arr(History(form));
  }

  /** Saving the form and opening the page again, even on another day, shows
      the same form: every field the form holds was written to the store, and
      the form already holds every default and stored field. */
  lemma ReopenAfterSave(form: Record, stored: Record, today: string, now: string, later: string, laterNow: string)
    requires FormDefaults(today, now).Keys <= form.Keys && stored.Keys <= form.Keys
    ensures OpeningForm(later, laterNow, Merge(stored, form)) == form
  {
    assert FormDefaults(later, laterNow).Keys == FormDefaults(today, now).Keys;
    assert OpeningForm(later, laterNow, Merge(stored, form)).Keys == form.Keys;
  }

  /** Editing never drops a field, so a form opened on `stored` keeps holding
      every default and every stored field, which is what reopening needs. */
  lemma EditsKeepFields(form: Record, field: string, value: Value, option: string, checked: bool)
    ensures form.Keys <= SetField(form, field, value).Keys
    ensures form.Keys <= ToggleHistory(form, option, checked).Keys
  {
  }

  class Page {
    const store: AssessmentStore
    var formData: Record

    /** The page opens on the defaults overridden by the store's basic
        information. */
    constructor (store: AssessmentStore, today: string, now: string)
      ensures this.store == store
      ensures formData == OpeningForm(today, now, store.basicInfo)
    {
      this.store := store;
      formData := Merge(FormDefaults(today, now), store.basicInfo);
    }

    /** `handleInputChange(field, value)`, for one of the record's fields. */
    method HandleInputChange(field: string, value: Value)
      requires field in BasicInfoFields
      modifies this
      ensures formData == SetField(old(formData), field, value)
    {
      formData := Merge(formData, map[field := value]);
    }

    /** `handleMedicalHistoryChange(option, checked)`. */
    method HandleMedicalHistoryChange(option: string, checked: bool)
      modifies this
      ensures formData == ToggleHistory(old(formData), option, checked)
    {
      var current := History(formData);
      if checked {
        formData := Merge(formData, map["medicalHistory" := Arr(current + [Str(option)])]);
      } else {
        formData := Merge(formData, map["medicalHistory" := Arr(Without(current, Str(option)))]);
      }
    }

    /** `handleSave()`: the form is merged into the store's basic information. */
    method HandleSave()
      modifies store
      ensures store.Snapshot() == Update(old(store.Snapshot()), BasicInfo, formData)
    {
      store.UpdateBasicInfo(formData);
    }

    /** `handleNext()`: saves the form, then moves the store to step 2. */
    method HandleNext()
      modifies store
      ensures store.Snapshot() == Update(old(store.Snapshot()), BasicInfo, formData).(currentStep := 2)
    {
      store.UpdateBasicInfo(formData);
      store.SetCurrentStep(2);
    }
  }
}
