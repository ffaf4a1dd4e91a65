/** The store's two derived insights, computed from a snapshot of the store:
    suggested care problems and risk alerts. Neither changes the store. */
module RuleEngine {

  import opened Wrappers
  import opened Values
  import opened Lists
  import opened Catalog
  import opened Store

  /** `v?.includes(marker)` on a value reached by optional chaining: false when
      the value is missing or `null`. */
  predicate TextIncludes(v: Option<Value>, marker: string)
  {
    v.Some? && v.value.Str? && Includes(v.value.s, marker)
  }

  // ---------------------------------------------------------------------------
  // Rule conditions
  // ---------------------------------------------------------------------------

  /** `physicalBody.skinCondition?.pressureInjury?.includes(marker)`. */
  predicate PressureInjuryIncludes(s: State, marker: string)
  {
    TextIncludes(Path(s.physicalBody, "skinCondition", "pressureInjury"), marker)
  }

  /** The pressure injury is recorded as grade 2, 3 or 4. */
  predicate PressureGradeTwoToFour(s: State)
  {
    PressureInjuryIncludes(s, "2級") || PressureInjuryIncludes(s, "3級") || PressureInjuryIncludes(s, "4級")
  }

  /** The pressure injury is recorded as grade 3 or 4. */
  predicate PressureGradeThreeOrFour(s: State)
  {
    PressureInjuryIncludes(s, "3級") || PressureInjuryIncludes(s, "4級")
  }

  /** Walking is described as unstable. */
  predicate WalkingUnstable(s: State)
  {
    TextIncludes(Path(s.physicalBody, "mobilityAbility", "walkingAbility"), "不穩")
  }

  /** `fallFrequency !== '無跌倒'`: anything but the exact "no falls" answer,
      including a missing or empty answer. */
  predicate FallFrequencyNotNone(s: State)
  {
    Path(s.physicalBody, "mobilityAbility", "fallFrequency") != Some(Str("無跌倒"))
  }

  /** `memoryStatus === 'short_term_poor'` (exact equality). */
  predicate ShortTermMemoryPoor(s: State)
  {
    Path(s.physicalBody, "mentalFunction", "memoryStatus") == Some(Str("short_term_poor"))
  }

  /** `medicationStatus` is exactly one of the four statuses that need help. */
  predicate NeedsMedicationHelp(s: State)
  {
    var m := Field(s.healthMedical, "medicationStatus");
    m == Some(Str("reminder")) || m == Some(Str("partial_help"))
    || m == Some(Str("full_help")) || m == Some(Str("poor_compliance"))
  }

  /** The medication rule fires exactly for a status among the help statuses
      of the enumeration. */
  lemma MedicationRuleUsesHelpStatuses(s: State)
    ensures NeedsMedicationHelp(s) <==>
      var m := Field(s.healthMedical, "medicationStatus");
      m.Some? && m.value.Str? && m.value.s in MedicationHelpStatuses
  {
  }

  /** Bowel movement or urination is described as incontinent. */
  predicate Incontinent(s: State)
  {
    TextIncludes(Path(s.physicalBody, "excretoryFunction", "bowelMovement"), "失禁")
    || TextIncludes(Path(s.physicalBody, "excretoryFunction", "urination"), "失禁")
  }

  /** The living situation is described as living alone. */
  predicate LivesAlone(s: State)
  {
    TextIncludes(Path(s.socialFamily, "familySocialSupport", "livingSituation"), "獨居")
  }

  /** Eating is fully dependent or the diet is tube feeding. */
  predicate NutritionAtRisk(s: State)
  {
    TextIncludes(Path(s.physicalBody, "nutritionDiet", "eatingCondition"), "完全依賴")
    || TextIncludes(Path(s.physicalBody, "nutritionDiet", "dietType"), "管灌")
  }

  // ---------------------------------------------------------------------------
  // autoSuggestCareProblems
  // ---------------------------------------------------------------------------

  /** The ids the five rules push, in rule order, given which rules fired. */
  function PushedFor(skin: bool, falls: bool, memory: bool, medication: bool, continence: bool): (r: seq<int>)
    ensures |r| <= |RuleOrder|
    ensures forall id :: id in r ==> id in RuleOrder
  {
    (if skin then [20, 21] else [])
    + (if falls then [26] else [])
    + (if memory then [17] else [])
    + (if medication then [14] else [])
    + (if continence then [5, 6] else [])
  }

  /** Each id is pushed exactly when its rule fired. */
  lemma PushedForMembers(skin: bool, falls: bool, memory: bool, medication: bool, continence: bool)
    ensures var r := PushedFor(skin, falls, memory, medication, continence);
      && (20 in r <==> skin) && (21 in r <==> skin)
      && (26 in r <==> falls)
      && (17 in r <==> memory)
      && (14 in r <==> medication)
      && (5 in r <==> continence) && (6 in r <==> continence)
  {
  }

  /** The ids the five rules push for the snapshot `s`. */
  function Pushed(s: State): seq<int>
  {
    PushedFor(PressureGradeTwoToFour(s), WalkingUnstable(s) || FallFrequencyNotNone(s),
              ShortTermMemoryPoor(s), NeedsMedicationHelp(s), Incontinent(s))
  }

  /** Every id the rules can push, in the order of the rules. */
  const RuleOrder: seq<int> := [20, 21, 26, 17, 14, 5, 6]

  lemma {:induction false} SubsequenceReflexive(a: seq<int>)
    ensures IsSubsequence(a, a)
  {
    if a != [] {
      SubsequenceReflexive(a[1..]);
    }
  }

  /** Each rule's block is either empty or the whole block. */
  lemma BlockIsSubsequence(c: bool, block: seq<int>)
    ensures IsSubsequence(if c then block else [], block)
  {
    SubsequenceReflexive(block);
  }

  /** The rule order is the five blocks in turn, and repeats no id. */
  lemma RuleOrderDistinct()
    ensures [20, 21] + [26] + [17] + [14] + [5, 6] == RuleOrder
    ensures NoDuplicates(RuleOrder)
  {
  }

  /** The pushed ids appear in rule order, skipping the rules that did not
      fire; so they are distinct. */
  lemma PushedFollowsRuleOrder(skin: bool, falls: bool, memory: bool, medication: bool, continence: bool)
    ensures IsSubsequence(PushedFor(skin, falls, memory, medication, continence), RuleOrder)
    ensures NoDuplicates(PushedFor(skin, falls, memory, medication, continence))
  {
    var b1 := if skin then [20, 21] else [];
    var b2 := if falls then [26] else [];
    var b3 := if memory then [17] else [];
    var b4 := if medication then [14] else [];
    var b5 := if continence then [5, 6] else [];
    BlockIsSubsequence(skin, [20, 21]);
    BlockIsSubsequence(falls, [26]);
    BlockIsSubsequence(memory, [17]);
    BlockIsSubsequence(medication, [14]);
    BlockIsSubsequence(continence, [5, 6]);
    SubsequenceConcat(b1, [20, 21], b2, [26]);
    SubsequenceConcat(b1 + b2, [20, 21] + [26], b3, [17]);
    SubsequenceConcat(b1 + b2 + b3, [20, 21] + [26] + [17], b4, [14]);
    SubsequenceConcat(b1 + b2 + b3 + b4, [20, 21] + [26] + [17] + [14], b5, [5, 6]);
    RuleOrderDistinct();
    SubsequenceOfDistinct(PushedFor(skin, falls, memory, medication, continence), RuleOrder);
  }

  /** Removing duplicates from the pushed ids keeps them in rule order, keeps
      each id exactly when the rule that pushes it fired, and leaves only
      catalog ids. */
  lemma DedupPushedFor(skin: bool, falls: bool, memory: bool, medication: bool, continence: bool)
    ensures var r := Dedup(PushedFor(skin, falls, memory, medication, continence));
      && r == PushedFor(skin, falls, memory, medication, continence)
      && IsSubsequence(r, RuleOrder)
      && NoDuplicates(r)
      && (forall id :: id in r ==> IsCatalogId(id))
      && (forall id :: id in r <==>
           || ((id == 20 || id == 21) && skin)
           || (id == 26 && falls)
           || (id == 17 && memory)
           || (id == 14 && medication)
           || ((id == 5 || id == 6) && continence))
  {
    var pushed := PushedFor(skin, falls, memory, medication, continence);
    PushedFollowsRuleOrder(skin, falls, memory, medication, continence);
    DedupDistinct(pushed);
    assert forall id :: id in RuleOrder ==> IsCatalogId(id);
    SubsequenceElements(pushed, RuleOrder);
  }

  /** `autoSuggestCareProblems()`: duplicate-free, in rule order, every id a
      catalog problem, and each id present exactly when its rule fires. */
  function AutoSuggest(s: State): (r: seq<int>)
    ensures IsSubsequence(r, RuleOrder)
    ensures NoDuplicates(r)
    ensures forall id :: id in r ==> IsCatalogId(id)
    ensures forall id :: id in r <==>
      || ((id == 20 || id == 21) && PressureGradeTwoToFour(s))
      || (id == 26 && (WalkingUnstable(s) || FallFrequencyNotNone(s)))
      || (id == 17 && ShortTermMemoryPoor(s))
      || (id == 14 && NeedsMedicationHelp(s))
      || ((id == 5 || id == 6) && Incontinent(s))
  {
    var skin, falls := PressureGradeTwoToFour(s), WalkingUnstable(s) || FallFrequencyNotNone(s);
    var memory, medication, continence := ShortTermMemoryPoor(s), NeedsMedicationHelp(s), Incontinent(s);
    DedupPushedFor(skin, falls, memory, medication, continence);
    Dedup(PushedFor(skin, falls, memory, medication, continence))
  }

  /** Removing duplicates removes nothing: the rules push distinct ids. */
  lemma AutoSuggestIsPushed(s: State)
    ensures AutoSuggest(s) == Pushed(s)
  {
    DedupPushedFor(PressureGradeTwoToFour(s), WalkingUnstable(s) || FallFrequencyNotNone(s),
                   ShortTermMemoryPoor(s), NeedsMedicationHelp(s), Incontinent(s));
  }

  // ---------------------------------------------------------------------------
  // generateRiskAlerts
  // ---------------------------------------------------------------------------

  const FallAlert := RiskAlert("fall", "注意：此個案為跌倒高風險群（行走不穩且獨居）", "high")
  const PressureInjuryAlert := RiskAlert("pressure_injury", "注意：此個案有嚴重壓傷風險", "high")
  const NutritionAlert := RiskAlert("nutrition", "注意：此個案有營養攝取風險", "medium")

  /** Every alert the rules can raise, in the order of the rules. */
  const AlertOrder: seq<RiskAlert> := [FallAlert, PressureInjuryAlert, NutritionAlert]

  /** The alerts the three rules push, in rule order, given which rules
      fired. */
  function AlertsFor(fall: bool, pressure: bool, nutrition: bool): (r: seq<RiskAlert>)
    ensures FallAlert in r <==> fall
    ensures PressureInjuryAlert in r <==> pressure
    ensures NutritionAlert in r <==> nutrition
  {
    AlertsDiffer();
    (if fall then [FallAlert] else [])
    + (if pressure then [PressureInjuryAlert] else [])
    + (if nutrition then [NutritionAlert] else [])
  }

  /** The three alerts differ in kind, and each has a declared kind and
      severity. */
  lemma AlertsDiffer()
    ensures FallAlert != PressureInjuryAlert && FallAlert != NutritionAlert
    ensures PressureInjuryAlert != NutritionAlert
    ensures NoDuplicates(AlertOrder)
    ensures forall a :: a in AlertOrder ==> ValidAlert(a)
  {
    assert FallAlert.kind[0] == 'f' && PressureInjuryAlert.kind[0] == 'p' && NutritionAlert.kind[0] == 'n';
  }

  /** The pushed alerts keep rule order, so they are distinct. */
  lemma AlertsForOrder(fall: bool, pressure: bool, nutrition: bool)
    ensures IsSubsequence(AlertsFor(fall, pressure, nutrition), AlertOrder)
    ensures NoDuplicates(AlertsFor(fall, pressure, nutrition))
  {
    var a1 := if fall then [FallAlert] else [];
    var a2 := if pressure then [PressureInjuryAlert] else [];
    var a3 := if nutrition then [NutritionAlert] else [];
    assert IsSubsequence(a1, [FallAlert]) && IsSubsequence(a2, [PressureInjuryAlert]);
    assert IsSubsequence(a3, [NutritionAlert]);
    SubsequenceConcat(a1, [FallAlert], a2, [PressureInjuryAlert]);
    SubsequenceConcat(a1 + a2, [FallAlert] + [PressureInjuryAlert], a3, [NutritionAlert]);
    assert [FallAlert] + [PressureInjuryAlert] + [NutritionAlert] == AlertOrder;
    AlertsDiffer();
    SubsequenceOfDistinct(a1 + a2 + a3, AlertOrder);
  }

  /** Each alert is pushed exactly when its rule fired, and every pushed
      alert is well formed. */
  lemma AlertsForMembers(fall: bool, pressure: bool, nutrition: bool)
    ensures var r := AlertsFor(fall, pressure, nutrition);
      && |r| <= 3
      && (FallAlert in r <==> fall)
      && (PressureInjuryAlert in r <==> pressure)
      && (NutritionAlert in r <==> nutrition)
      && (forall a :: a in r ==> ValidAlert(a))
  {
    AlertsDiffer();
  }

  /** `generateRiskAlerts()`: at most one alert per rule, in rule order, each
      present exactly when its rule fires, each of a declared kind and
      severity. */
  function RiskAlerts(s: State): (r: seq<RiskAlert>)
    ensures |r| <= 3
    ensures IsSubsequence(r, AlertOrder)
    ensures NoDuplicates(r)
    ensures FallAlert in r <==> WalkingUnstable(s) && LivesAlone(s)
    ensures PressureInjuryAlert in r <==> PressureGradeThreeOrFour(s)
    ensures NutritionAlert in r <==> NutritionAtRisk(s)
    ensures forall a :: a in r ==> ValidAlert(a)
  {
    var fall, pressure, nutrition := WalkingUnstable(s) && LivesAlone(s), PressureGradeThreeOrFour(s), NutritionAtRisk(s);
    AlertsForOrder(fall, pressure, nutrition);
    AlertsForMembers(fall, pressure, nutrition);
    AlertsFor(fall, pressure, nutrition)
  }

  // ---------------------------------------------------------------------------
  // The two store actions
  // ---------------------------------------------------------------------------

  /** `autoSuggestCareProblems()` as the store runs it: read the snapshot, push
      each fired rule's ids onto an empty list, and return it without
      duplicates. The store is only read. */
  method AutoSuggestCareProblems(store: AssessmentStore) returns (suggestions: seq<int>)
    ensures suggestions == AutoSuggest(store.Snapshot())
  {
    var state := store.Snapshot();
    var skin, falls := PressureGradeTwoToFour(state), WalkingUnstable(state) || FallFrequencyNotNone(state);
    var memory, medication, continence := ShortTermMemoryPoor(state), NeedsMedicationHelp(state), Incontinent(state);
    var pushed: seq<int> := [];
    if skin {
      pushed := pushed + [20, 21];
    }
    assert pushed == (if skin then [20, 21] else []);
    if falls {
      pushed := pushed + [26];
    }
    assert pushed == (if skin then [20, 21] else []) + (if falls then [26] else []);
    if memory {
      pushed := pushed + [17];
    }
    assert pushed == (if skin then [20, 21] else []) + (if falls then [26] else []) + (if memory then [17] else []);
    if medication {
      pushed := pushed + [14];
    }
    assert pushed == (if skin then [20, 21] else []) + (if falls then [26] else []) + (if memory then [17] else [])
                     + (if medication then [14] else []);
    if continence {
      pushed := pushed + [5, 6];
    }
    assert pushed == PushedFor(skin, falls, memory, medication, continence);
    suggestions := Dedup(pushed);
  }

  /** `generateRiskAlerts()` as the store runs it: read the snapshot and push
      each fired rule's alert onto an empty list. The store is only read. */
  method GenerateRiskAlerts(store: AssessmentStore) returns (alerts: seq<RiskAlert>)
    ensures alerts == RiskAlerts(store.Snapshot())
  {
    var state := store.Snapshot();
    var fall, pressure, nutrition := WalkingUnstable(state) && LivesAlone(state), PressureGradeThreeOrFour(state), NutritionAtRisk(state);
    alerts := [];
    if fall {
      alerts := alerts + [FallAlert];
    }
    assert alerts == (if fall then [FallAlert] else []);
    if pressure {
      alerts := alerts + [PressureInjuryAlert];
    }
    assert alerts == (if fall then [FallAlert] else []) + (if pressure then [PressureInjuryAlert] else []);
    if nutrition {
      alerts := alerts + [NutritionAlert];
    }
    assert alerts == AlertsFor(fall, pressure, nutrition);
  }

  // ---------------------------------------------------------------------------
  // Scenarios
  // ---------------------------------------------------------------------------

  /** A text holds every marker written inside it. */
  lemma {:induction false} IncludesInside(p: string, m: string, q: string)
    ensures Includes(p + m + q, m)
    decreases |p|
  {
    if p == [] {
      assert p + m + q == m + q;
      assert m <= m + q;
    } else {
      assert (p + m + q)[1..] == p[1..] + m + q;
      IncludesInside(p[1..], m, q);
    }
  }

  /** The empty default answers contain no marker. */
  lemma EmptyTextIncludesNoMarker(m: string)
    requires m != []
    ensures !Includes("", m)
  {
    ShorterExcludes("", m);
  }

  // ---------------------------------------------------------------------------
  // The answers the rules read
  // ---------------------------------------------------------------------------

  /** The ten answers the two rule sets read, each as optional chaining
      reaches it. */
  datatype RuleAnswers = RuleAnswers(
    pressureInjury: Option<Value>,
    walkingAbility: Option<Value>,
    fallFrequency: Option<Value>,
    memoryStatus: Option<Value>,
    medicationStatus: Option<Value>,
    bowelMovement: Option<Value>,
    urination: Option<Value>,
    livingSituation: Option<Value>,
    eatingCondition: Option<Value>,
    dietType: Option<Value>)

  function AnswersOf(s: State): RuleAnswers
  {
    RuleAnswers(
      Path(s.physicalBody, "skinCondition", "pressureInjury"),
      Path(s.physicalBody, "mobilityAbility", "walkingAbility"),
      Path(s.physicalBody, "mobilityAbility", "fallFrequency"),
      Path(s.physicalBody, "mentalFunction", "memoryStatus"),
      Field(s.healthMedical, "medicationStatus"),
      Path(s.physicalBody, "excretoryFunction", "bowelMovement"),
      Path(s.physicalBody, "excretoryFunction", "urination"),
      Path(s.socialFamily, "familySocialSupport", "livingSituation"),
      Path(s.physicalBody, "nutritionDiet", "eatingCondition"),
      Path(s.physicalBody, "nutritionDiet", "dietType"))
  }

  /** Both insights read nothing but these answers: snapshots that agree on
      them get the same suggestions and the same alerts. */
  lemma ResultsReadOnlyAnswers(s: State, t: State)
    requires AnswersOf(s) == AnswersOf(t)
    ensures AutoSuggest(s) == AutoSuggest(t)
    ensures RiskAlerts(s) == RiskAlerts(t)
  {
    AutoSuggestIsPushed(s);
    AutoSuggestIsPushed(t);
  }

  /** The answers of the default snapshot: empty texts, normal memory, and no
      medication status or living situation at all. */
  const DefaultAnswers := RuleAnswers(
    Some(EmptyText), Some(EmptyText), Some(EmptyText), Some(Str("normal")), None,
    Some(EmptyText), Some(EmptyText), None, Some(EmptyText), Some(EmptyText))

  lemma InitialAnswers()
    ensures AnswersOf(Initial) == DefaultAnswers
  {
    InitialSkinAndMobility();
    InitialMemoryAndExcretion();
    InitialNutritionAndOthers();
  }

  lemma InitialSkinAndMobility()
    ensures Path(Initial.physicalBody, "skinCondition", "pressureInjury") == Some(EmptyText)
    ensures Path(Initial.physicalBody, "mobilityAbility", "walkingAbility") == Some(EmptyText)
    ensures Path(Initial.physicalBody, "mobilityAbility", "fallFrequency") == Some(EmptyText)
  {
  }

  lemma InitialMemoryAndExcretion()
    ensures Path(Initial.physicalBody, "mentalFunction", "memoryStatus") == Some(Str("normal"))
    ensures Path(Initial.physicalBody, "excretoryFunction", "bowelMovement") == Some(EmptyText)
    ensures Path(Initial.physicalBody, "excretoryFunction", "urination") == Some(EmptyText)
  {
  }

  lemma InitialNutritionAndOthers()
    ensures Path(Initial.physicalBody, "nutritionDiet", "eatingCondition") == Some(EmptyText)
    ensures Path(Initial.physicalBody, "nutritionDiet", "dietType") == Some(EmptyText)
    ensures Field(Initial.healthMedical, "medicationStatus") == None
    ensures Path(Initial.socialFamily, "familySocialSupport", "livingSituation") == None
  {
  }

  /** A partial update of the physical sub-record changes only the answers of
      the groups it replaces; the medication and living answers stay. */
  lemma PhysicalUpdateFrame(s: State, data: Record)
    ensures var a, b := AnswersOf(s), AnswersOf(Update(s, PhysicalBody, data));
      && ("skinCondition" !in data ==> b.pressureInjury == a.pressureInjury)
      && ("mobilityAbility" !in data ==> b.walkingAbility == a.walkingAbility && b.fallFrequency == a.fallFrequency)
      && ("mentalFunction" !in data ==> b.memoryStatus == a.memoryStatus)
      && ("excretoryFunction" !in data ==> b.bowelMovement == a.bowelMovement && b.urination == a.urination)
      && ("nutritionDiet" !in data ==> b.eatingCondition == a.eatingCondition && b.dietType == a.dietType)
      && b.medicationStatus == a.medicationStatus && b.livingSituation == a.livingSituation
  {
    var t := Update(s, PhysicalBody, data);
    forall outer, inner | outer !in data
      ensures Path(t.physicalBody, outer, inner) == Path(s.physicalBody, outer, inner)
    {
    }
  }

  /** Which rule conditions hold on the default answers: only the fall
      frequency test, since the empty answer is not '無跌倒'. */
  lemma DefaultConditions(s: State)
    requires AnswersOf(s) == DefaultAnswers
    ensures !PressureGradeTwoToFour(s) && !PressureGradeThreeOrFour(s)
    ensures !WalkingUnstable(s) && FallFrequencyNotNone(s)
    ensures !ShortTermMemoryPoor(s) && !NeedsMedicationHelp(s)
    ensures !Incontinent(s) && !LivesAlone(s) && !NutritionAtRisk(s)
  {
    EmptyTextIncludesNoMarker("2級");
    EmptyTextIncludesNoMarker("3級");
    EmptyTextIncludesNoMarker("4級");
    EmptyTextIncludesNoMarker("不穩");
    EmptyTextIncludesNoMarker("失禁");
    EmptyTextIncludesNoMarker("完全依賴");
    EmptyTextIncludesNoMarker("管灌");
  }

  /** Both results are fixed by which rule conditions hold. */
  lemma ResultsFor(s: State, skin: bool, falls: bool, memory: bool, medication: bool, continence: bool,
                   fall: bool, pressure: bool, nutrition: bool)
    requires skin == PressureGradeTwoToFour(s) && falls == (WalkingUnstable(s) || FallFrequencyNotNone(s))
    requires memory == ShortTermMemoryPoor(s) && medication == NeedsMedicationHelp(s) && continence == Incontinent(s)
    requires fall == (WalkingUnstable(s) && LivesAlone(s)) && pressure == PressureGradeThreeOrFour(s)
    requires nutrition == NutritionAtRisk(s)
    ensures AutoSuggest(s) == PushedFor(skin, falls, memory, medication, continence)
    ensures RiskAlerts(s) == AlertsFor(fall, pressure, nutrition)
  {
    AutoSuggestIsPushed(s);
  }

  /** The pushed lists of the scenarios below. */
  lemma ScenarioLists()
    ensures PushedFor(false, true, false, false, false) == [26]
    ensures PushedFor(false, true, false, true, false) == [26, 14]
    ensures PushedFor(false, false, false, false, false) == []
    ensures PushedFor(true, true, false, false, false) == [20, 21, 26]
    ensures AlertsFor(false, false, false) == []
    ensures AlertsFor(false, false, true) == [NutritionAlert]
  {
  }

  // ---------------------------------------------------------------------------
  // Scenarios
  // ---------------------------------------------------------------------------

  /** On the default answers only fall risk (26) is suggested and no alert is
      raised. */
  lemma DefaultAnswersSuggestFallRisk(s: State)
    requires AnswersOf(s) == DefaultAnswers
    ensures AutoSuggest(s) == [26] && RiskAlerts(s) == []
  {
    DefaultConditions(s);
    ScenarioLists();
    ResultsFor(s, false, true, false, false, false, false, false, false);
  }

  /** The store's default snapshot is such a snapshot. */
  lemma DefaultSnapshotSuggestsFallRisk()
    ensures AutoSuggest(Initial) == [26] && RiskAlerts(Initial) == []
  {
    InitialAnswers();
    DefaultAnswersSuggestFallRisk(Initial);
  }

  /** With the medication status 'reminder' and every other answer at its
      default, fall risk and the medication problem are suggested, in that
      order, and no alert is raised. */
  lemma ReminderOnlySuggestsFallRiskAndMedication(s: State)
    requires AnswersOf(s) == DefaultAnswers.(medicationStatus := Some(Str("reminder")))
    ensures AutoSuggest(s) == [26, 14] && RiskAlerts(s) == []
  {
    EmptyTextIncludesNoMarker("2級");
    EmptyTextIncludesNoMarker("3級");
    EmptyTextIncludesNoMarker("4級");
    EmptyTextIncludesNoMarker("不穩");
    EmptyTextIncludesNoMarker("失禁");
    EmptyTextIncludesNoMarker("完全依賴");
    EmptyTextIncludesNoMarker("管灌");
    assert NeedsMedicationHelp(s);
    ScenarioLists();
    ResultsFor(s, false, true, false, true, false, false, false, false);
  }

  /** The store's default snapshot after `updateHealthMedical({ medicationStatus:
      'reminder' })` is such a snapshot. */
  lemma ReminderUpdateOfDefaults()
    ensures var s := Update(Initial, HealthMedical, map["medicationStatus" := Str("reminder")]);
      AutoSuggest(s) == [26, 14] && RiskAlerts(s) == []
  {
    var s := Update(Initial, HealthMedical, map["medicationStatus" := Str("reminder")]);
    InitialAnswers();
    assert AnswersOf(s) == DefaultAnswers.(medicationStatus := Some(Str("reminder")));
    ReminderOnlySuggestsFallRiskAndMedication(s);
  }

  /** With the exact "no falls" answer and every other answer at its default,
      nothing is suggested and no alert is raised. */
  lemma NoFallsAnswerSuggestsNothing(s: State)
    requires AnswersOf(s) == DefaultAnswers.(fallFrequency := Some(Str("無跌倒")))
    ensures AutoSuggest(s) == [] && RiskAlerts(s) == []
  {
    EmptyTextIncludesNoMarker("2級");
    EmptyTextIncludesNoMarker("3級");
    EmptyTextIncludesNoMarker("4級");
    EmptyTextIncludesNoMarker("不穩");
    EmptyTextIncludesNoMarker("失禁");
    EmptyTextIncludesNoMarker("完全依賴");
    EmptyTextIncludesNoMarker("管灌");
    ScenarioLists();
    ResultsFor(s, false, false, false, false, false, false, false, false);
  }

  /** The answer "2級" holds the grade-2 marker and neither of the others. */
  lemma GradeTwoText()
    ensures Includes("2級", "2級") && !Includes("2級", "3級") && !Includes("2級", "4級")
  {
    assert "2級" <= "2級";
    assert "2級"[0] == '2' && "3級"[0] == '3' && "4級"[0] == '4';
    assert "2級"[1..] == "級";
    ShorterExcludes("級", "3級");
    ShorterExcludes("級", "4級");
  }

  /** The answers of the severe scenario hold the markers the rules test. */
  lemma SevereScenarioText()
    ensures Includes("3級", "3級") && Includes("行走不穩", "不穩") && Includes("獨居", "獨居")
  {
    IncludesInside("", "3級", "");
    IncludesInside("行走", "不穩", "");
    IncludesInside("", "獨居", "");
    assert "" + "3級" + "" == "3級";
    assert "行走" + "不穩" + "" == "行走不穩";
    assert "" + "獨居" + "" == "獨居";
  }

  /** A grade-2 pressure injury with every other answer at its default
      suggests skin care (20) and wound care (21) besides fall risk, but raises
      no pressure-injury alert, which needs grade 3 or 4. */
  lemma GradeTwoSuggestsButDoesNotAlert(s: State)
    requires AnswersOf(s) == DefaultAnswers.(pressureInjury := Some(Str("2級")))
    ensures AutoSuggest(s) == [20, 21, 26] && RiskAlerts(s) == []
  {
    GradeTwoText();
    EmptyTextIncludesNoMarker("不穩");
    EmptyTextIncludesNoMarker("失禁");
    EmptyTextIncludesNoMarker("完全依賴");
    EmptyTextIncludesNoMarker("管灌");
    ScenarioLists();
    ResultsFor(s, true, true, false, false, false, false, false, false);
  }

  /** Recording a grade-2 injury on the default snapshot
      (`updatePhysicalBody({ skinCondition: { pressureInjury: '2級' } })`)
      gives such a snapshot. */
  lemma GradeTwoUpdateOfDefaults()
    ensures var s := Update(Initial, PhysicalBody, map["skinCondition" := Obj(map["pressureInjury" := Str("2級")])]);
      AutoSuggest(s) == [20, 21, 26] && RiskAlerts(s) == []
  {
    var data := map["skinCondition" := Obj(map["pressureInjury" := Str("2級")])];
    var s := Update(Initial, PhysicalBody, data);
    InitialAnswers();
    RecordedInjury(Initial, "2級");
    GradeTwoSuggestsButDoesNotAlert(s);
  }

  /** `updatePhysicalBody({ skinCondition: { pressureInjury: answer } })`
      changes the answer the skin rules read, and no other. */
  lemma RecordedInjury(s: State, answer: string)
    ensures AnswersOf(Update(s, PhysicalBody, map["skinCondition" := Obj(map["pressureInjury" := Str(answer)])]))
         == AnswersOf(s).(pressureInjury := Some(Str(answer)))
  {
    PhysicalUpdateFrame(s, map["skinCondition" := Obj(map["pressureInjury" := Str(answer)])]);
  }

  /** A grade-3 pressure injury and unstable walking for a client who lives
      alone, whatever else the snapshot holds: problems 20, 21 and 26 are
      suggested and both the fall alert and the pressure-injury alert are
      raised, both of high severity. */
  lemma SevereInjuryUnstableAlone(s: State)
    requires Path(s.physicalBody, "skinCondition", "pressureInjury") == Some(Str("3級"))
    requires Path(s.physicalBody, "mobilityAbility", "walkingAbility") == Some(Str("行走不穩"))
    requires Path(s.socialFamily, "familySocialSupport", "livingSituation") == Some(Str("獨居"))
    ensures 20 in AutoSuggest(s) && 21 in AutoSuggest(s) && 26 in AutoSuggest(s)
    ensures FallAlert in RiskAlerts(s) && PressureInjuryAlert in RiskAlerts(s)
    ensures FallAlert.severity == "high" && PressureInjuryAlert.severity == "high"
  {
    SevereScenarioText();
    assert PressureGradeTwoToFour(s) && PressureGradeThreeOrFour(s);
    assert WalkingUnstable(s) && LivesAlone(s);
  }

  /** A fully dependent eater with every other answer at its default gets
      exactly one alert: the medium-severity nutrition alert. */
  lemma FullyDependentEatingRaisesNutritionAlert(s: State)
    requires AnswersOf(s) == DefaultAnswers.(eatingCondition := Some(Str("完全依賴")))
    ensures RiskAlerts(s) == [NutritionAlert] && NutritionAlert.severity == "medium"
  {
    IncludesInside("", "完全依賴", "");
    assert "" + "完全依賴" + "" == "完全依賴";
    EmptyTextIncludesNoMarker("不穩");
    EmptyTextIncludesNoMarker("3級");
    EmptyTextIncludesNoMarker("4級");
    ScenarioLists();
    ResultsFor(s, false, true, false, false, false, false, false, true);
  }

  /** The fall alert needs both unstable walking and living alone. */
  lemma FallAlertNeedsBoth(s: State)
    ensures FallAlert in RiskAlerts(s) ==> WalkingUnstable(s)
    ensures FallAlert in RiskAlerts(s) ==> LivesAlone(s)
    ensures !LivesAlone(s) ==> FallAlert !in RiskAlerts(s)
  {
  }
}
