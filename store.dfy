/** The assessment aggregate store: six partially filled sub-records, the
    wizard's current step and an optional previously loaded assessment. */
module Store {

  import opened Wrappers
  import opened Values
  import opened Catalog

  datatype AssessmentStatus = Draft | Completed | Synced

  /** A complete saved assessment, kept for display only. */
  datatype Assessment = Assessment(
    id: string,
    basicInfo: Record,
    healthMedical: Record,
    physicalBody: Record,
    socialFamily: Record,
    carePlan: Record,
    completionSignature: Record,
    status: AssessmentStatus,
    createdAt: string,
    updatedAt: string)

  /** The six editable sub-records of the aggregate. */
  datatype Domain =
    | BasicInfo
    | HealthMedical
    | PhysicalBody
    | SocialFamily
    | CarePlan
    | CompletionSignature

  /** Everything the store holds, as one value (what `get()` returns). */
  datatype State = State(
    currentAssessment: Option<Assessment>,
    currentStep: int,
    totalSteps: int,
    basicInfo: Record,
    healthMedical: Record,
    physicalBody: Record,
    socialFamily: Record,
    carePlan: Record,
    completionSignature: Record)
  {
    /** The sub-record of domain `d`. */
    function Sub(d: Domain): Record
    {
      match d
      case BasicInfo => basicInfo
      case HealthMedical => healthMedical
      case PhysicalBody => physicalBody
      case SocialFamily => socialFamily
      case CarePlan => carePlan
      case CompletionSignature => completionSignature
    }
  }

  /** The effect of `update<D>(data)`: domain `d`'s sub-record becomes the
      shallow merge of `data` into it, and nothing else in the store changes. */
  function Update(s: State, d: Domain, data: Record): (r: State)
    ensures r.Sub(d) == Merge(s.Sub(d), data)
    ensures forall e :: e != d ==> r.Sub(e) == s.Sub(e)
    ensures r.currentStep == s.currentStep && r.totalSteps == s.totalSteps
    ensures r.currentAssessment == s.currentAssessment
  {
    match d
    case BasicInfo => s.(basicInfo := Merge(s.basicInfo, data))
    case HealthMedical => s.(healthMedical := Merge(s.healthMedical, data))
    case PhysicalBody => s.(physicalBody := Merge(s.physicalBody, data))
    case SocialFamily => s.(socialFamily := Merge(s.socialFamily, data))
    case CarePlan => s.(carePlan := Merge(s.carePlan, data))
    case CompletionSignature => s.(completionSignature := Merge(s.completionSignature, data))
  }

  /** A state is determined by its sub-records, current step, step count and
      loaded assessment. */
  lemma StateExtensionality(s: State, t: State)
    requires forall d :: s.Sub(d) == t.Sub(d)
    requires s.currentStep == t.currentStep && s.totalSteps == t.totalSteps
    requires s.currentAssessment == t.currentAssessment
    ensures s == t
  {
    assert s.Sub(BasicInfo) == t.Sub(BasicInfo);
    assert s.Sub(HealthMedical) == t.Sub(HealthMedical);
    assert s.Sub(PhysicalBody) == t.Sub(PhysicalBody);
    assert s.Sub(SocialFamily) == t.Sub(SocialFamily);
    assert s.Sub(CarePlan) == t.Sub(CarePlan);
    assert s.Sub(CompletionSignature) == t.Sub(CompletionSignature);
  }

  /** Applying the same partial update twice gives the state one application
      gives. */
  lemma UpdateIdempotent(s: State, d: Domain, data: Record)
    ensures Update(Update(s, d, data), d, data) == Update(s, d, data)
  {
    MergeIdempotent(s.Sub(d), data);
    StateExtensionality(Update(Update(s, d, data), d, data), Update(s, d, data));
  }

  /** Updates of two different domains do not interfere: either order gives
      the same state. */
  lemma UpdatesOfDistinctDomainsCommute(s: State, d: Domain, p: Record, e: Domain, q: Record)
    requires d != e
    ensures Update(Update(s, d, p), e, q) == Update(Update(s, e, q), d, p)
  {
    StateExtensionality(Update(Update(s, d, p), e, q), Update(Update(s, e, q), d, p));
  }

  // ---------------------------------------------------------------------------
  // The default snapshot (`initialState`)
  // ---------------------------------------------------------------------------

  const EmptyList := Arr([])
  const EmptyText := Str("")

  const InitialHealthMedical: Record := map[
    "currentTreatment" := EmptyList,
    "hospitalizationRecords" := EmptyList,
    "surgeryRecords" := EmptyList,
    "medicationPhotos" := EmptyList,
    "hasDialysis" := Bool(false)]

  const InitialPhysicalBody: Record := map[
    "mentalFunction" := Obj(map[
      "consciousness" := EmptyList,
      "cognitiveStatus" := EmptyText,
      "memoryStatus" := Str("normal"),
      "communicationAbility" := EmptyText,
      "emotionalExpression" := EmptyList,
      "behaviorExpression" := EmptyList]),
    "sensoryFunction" := Obj(map[
      "vision" := EmptyText,
      "hearing" := EmptyText,
      "smell" := EmptyText,
      "oralCondition" := EmptyList]),
    "nutritionDiet" := Obj(map[
      "dietType" := EmptyText,
      "eatingCondition" := EmptyText]),
    "muscleStrength" := Obj(map[
      "rightUpperLimb" := Num(5),
      "leftUpperLimb" := Num(5),
      "rightLowerLimb" := Num(5),
      "leftLowerLimb" := Num(5)]),
    "mobilityAbility" := Obj(map[
      "standingPosture" := EmptyText,
      "sittingPosture" := EmptyText,
      "transferAbility" := EmptyText,
      "walkingAbility" := EmptyText,
      "fallFrequency" := EmptyText,
      "assistiveDevices" := EmptyList]),
    "excretoryFunction" := Obj(map[
      "bowelMovement" := EmptyText,
      "urination" := EmptyText]),
    "skinCondition" := Obj(map[
      "skinProblems" := EmptyList,
      "pressureInjury" := EmptyText,
      "skinPhotos" := EmptyList]),
    "otherAssessments" := Obj(map[
      "diseaseCondition" := EmptyText,
      "painCondition" := EmptyText,
      "sleepCondition" := EmptyText,
      "otherTubes" := EmptyText,
      "hygieneBathing" := EmptyText])]

  const InitialSocialFamily: Record := map[
    "assistiveDevices" := EmptyList,
    "intensiveVisitNeeds" := EmptyList,
    "environmentPhotos" := EmptyList]

  const InitialCarePlan: Record := map[
    "careProblems" := Obj(map[
      "selectedProblems" := EmptyList,
      "autoSuggested" := EmptyList])]

  const InitialCompletionSignature: Record := map["riskAlerts" := EmptyList]

  /** The number of wizard steps. */
  const TotalSteps := 4

  const Initial: State := State(
    None, 1, TotalSteps,
    map[], InitialHealthMedical, InitialPhysicalBody, InitialSocialFamily,
    InitialCarePlan, InitialCompletionSignature)

  const Limbs: seq<string> := ["rightUpperLimb", "leftUpperLimb", "rightLowerLimb", "leftLowerLimb"]

  /** The default snapshot: first of four steps, nothing loaded, no basic
      information, no dialysis and no medication status, no selected or
      suggested problems and no risk alerts. */
  lemma InitialStateFacts()
    ensures Initial.currentStep == 1 && Initial.totalSteps == 4
    ensures Initial.currentAssessment == None
    ensures Initial.basicInfo == map[]
    ensures Field(Initial.healthMedical, "hasDialysis") == Some(Bool(false))
    ensures Field(Initial.healthMedical, "medicationStatus") == None
    ensures Path(Initial.carePlan, "careProblems", "selectedProblems") == Some(Arr([]))
    ensures Path(Initial.carePlan, "careProblems", "autoSuggested") == Some(Arr([]))
    ensures Field(Initial.completionSignature, "riskAlerts") == Some(Arr([]))
  {
  }

  /** The default physical answers: normal memory and full strength (5 on
      the 1-5 scale) in all four limbs. */
  lemma InitialBodyFacts()
    ensures Path(Initial.physicalBody, "mentalFunction", "memoryStatus") == Some(Str("normal"))
    ensures forall limb :: limb in Limbs ==> Path(Initial.physicalBody, "muscleStrength", limb) == Some(Num(5))
  {
  }

  /** The default strength of every limb lies on the grading scale, at its
      top. */
  lemma DefaultStrengthOnScale()
    ensures forall limb :: limb in Limbs ==>
      var p := Path(Initial.physicalBody, "muscleStrength", limb);
      p.Some? && p.value.Num? && MinStrength <= p.value.n <= MaxStrength && p.value.n == MaxStrength
  {
    InitialBodyFacts();
  }

  // ---------------------------------------------------------------------------
  // The store object
  // ---------------------------------------------------------------------------

  /** The process-wide assessment store; each `set` replaces the named fields. */
  class AssessmentStore {
    var currentAssessment: Option<Assessment>
    var currentStep: int
    var totalSteps: int
    var basicInfo: Record
    var healthMedical: Record
    var physicalBody: Record
    var socialFamily: Record
    var carePlan: Record
    var completionSignature: Record

    /** The store's current contents (`get()`). */
    function Snapshot(): State
      reads this
    {
      State(currentAssessment, currentStep, totalSteps, basicInfo, healthMedical,
            physicalBody, socialFamily, carePlan, completionSignature)
    }

    /** The store is created holding the default snapshot. */
    constructor ()
      ensures Snapshot() == Initial
    {
      currentAssessment, currentStep, totalSteps := None, 1, TotalSteps;
      basicInfo, healthMedical, physicalBody := map[], InitialHealthMedical, InitialPhysicalBody;
      socialFamily, carePlan, completionSignature := InitialSocialFamily, InitialCarePlan, InitialCompletionSignature;
    }

    /** Stores the loaded assessment; the editable sub-records stay as they were. */
    method SetCurrentAssessment(assessment: Option<Assessment>)
      modifies this
      ensures Snapshot() == old(Snapshot()).(currentAssessment := assessment)
    {
      currentAssessment := assessment;
    }

    /** Stores the current step as given, with no range check. */
    method SetCurrentStep(step: int)
      modifies this
      ensures Snapshot() == old(Snapshot()).(currentStep := step)
    {
      currentStep := step;
    }

    method UpdateBasicInfo(data: Record)
      modifies this
      ensures Snapshot() == Update(old(Snapshot()), BasicInfo, data)
    {
      basicInfo := Merge(basicInfo, data);
    }

    method UpdateHealthMedical(data: Record)
      modifies this
      ensures Snapshot() == Update(old(Snapshot()), HealthMedical, data)
    {
      healthMedical := Merge(healthMedical, data);
    }

    method UpdatePhysicalBody(data: Record)
      modifies this
      ensures Snapshot() == Update(old(Snapshot()), PhysicalBody, data)
    {
      physicalBody := Merge(physicalBody, data);
    }

    method UpdateSocialFamily(data: Record)
      modifies this
      ensures Snapshot() == Update(old(Snapshot()), SocialFamily, data)
    {
      socialFamily := Merge(socialFamily, data);
    }

    method UpdateCarePlan(data: Record)
      modifies this
      ensures Snapshot() == Update(old(Snapshot()), CarePlan, data)
    {
      carePlan := Merge(carePlan, data);
    }

    method UpdateCompletionSignature(data: Record)
      modifies this
      ensures Snapshot() == Update(old(Snapshot()), CompletionSignature, data)
    {
      completionSignature := Merge(completionSignature, data);
    }

    /** Restores the default snapshot, whatever the store held before. */
    method ResetAssessment()
      modifies this
      ensures Snapshot() == Initial
    {
      currentAssessment, currentStep, totalSteps := None, 1, TotalSteps;
      basicInfo, healthMedical, physicalBody := map[], InitialHealthMedical, InitialPhysicalBody;
      socialFamily, carePlan, completionSignature := InitialSocialFamily, InitialCarePlan, InitialCompletionSignature;
    }
  }
}
