/** The care-plan step of the wizard (step 3): the care problems the assessor
    has ticked, the care goals text and the service arrangement. Only the current
    step is written back to the store. */
module CarePlanPage {

  import opened Wrappers
  import opened Lists
  import opened Catalog
  import opened Store
  import opened RuleEngine

  // ---------------------------------------------------------------------------
  // The selection of care problems
  // ---------------------------------------------------------------------------

  /** `selectedProblems` after ticking (`checked`) or clearing the box of
      problem `id`: ticking appends the id, clearing drops every copy of it. */
  function Toggle(selected: seq<int>, id: int, checked: bool): seq<int>
  {
    if checked then selected + [id] else Without(selected, id)
  }

  /** Ticking shows the box as ticked and clearing shows it as clear; the other
      problems keep the state they had. */
  lemma ToggleSetsBox(selected: seq<int>, id: int, checked: bool)
    ensures id in Toggle(selected, id, checked) <==> checked
    ensures forall other :: other != id ==> (other in Toggle(selected, id, checked) <==> other in selected)
  {
  }

  /** Ticking a box that was clear keeps the selection duplicate-free, and
      clearing always does. */
  lemma ToggleKeepsDistinct(selected: seq<int>, id: int, checked: bool)
    requires NoDuplicates(selected)
    requires checked ==> id !in selected
    ensures NoDuplicates(Toggle(selected, id, checked))
  {
    if !checked {
      WithoutIsSubsequence(selected, id);
      SubsequenceOfDistinct(Without(selected, id), selected);
    }
  }

  /** Ticking a clear box and then clearing it again restores the selection. */
  lemma TickThenClear(selected: seq<int>, id: int)
    requires id !in selected
    ensures Toggle(Toggle(selected, id, true), id, false) == selected
  {
    WithoutAbsent(selected, id);
    WithoutAppend(selected, id);
  }

  /** `[...new Set([...prev, ...suggestions])]`: the selection, followed by the
      suggestions not already selected, each once. */
  function MergeSuggestions(selected: seq<int>, suggestions: seq<int>): (r: seq<int>)
    ensures NoDuplicates(r)
    ensures forall id :: id in r <==> id in selected || id in suggestions
  {
    Dedup(selected + suggestions)
  }

  /** Merging in the suggestions never loses or reorders a problem already
      ticked, and asking for the same suggestions again changes nothing. */
  lemma MergeSuggestionsKeepsSelection(selected: seq<int>, suggestions: seq<int>)
    ensures NoDuplicates(selected) ==> selected <= MergeSuggestions(selected, suggestions)
    ensures Dedup(selected) <= MergeSuggestions(selected, suggestions)
    ensures MergeSuggestions(MergeSuggestions(selected, suggestions), suggestions)
         == MergeSuggestions(selected, suggestions)
  {
    UnionDedup(selected, suggestions);
  }

  /** `[...new Set(...)]` keeps the first occurrence of each id, which is the
      classic order-preserving removal of duplicates. */
  lemma MergeSuggestionsIsNub(selected: seq<int>, suggestions: seq<int>)
    ensures MergeSuggestions(selected, suggestions) == Nub(selected + suggestions)
  {
    DedupIsNub(selected + suggestions);
  }

  /** Every id in a selection built from catalog ids and suggestions is a
      catalog id. */
  lemma SuggestionsStayInCatalog(selected: seq<int>, s: State)
    requires forall id :: id in selected ==> IsCatalogId(id)
    ensures forall id :: id in MergeSuggestions(selected, AutoSuggest(s)) ==> IsCatalogId(id)
  {
  }

  /** The labels shown for the selection, one per selected id, in selection
      order (`CARE_PROBLEMS.find(p => p.id === id)?.name`); an id outside the
      catalog shows nothing. */
  function SelectedLabels(selected: seq<int>): (r: seq<Option<string>>)
    ensures |r| == |selected|
    ensures forall i :: 0 <= i < |selected| ==> r[i] == NameOf(selected[i])
  {
    if selected == [] then []
    else
      FindIsNameOf(selected[0]);
      [Find(CareProblems, selected[0])] + SelectedLabels(selected[1..])
  }

  // ---------------------------------------------------------------------------
  // The service arrangement
  // ---------------------------------------------------------------------------

  /** The five free-text service-arrangement answers. */
  datatype Arrangement = Arrangement(
    homeService: string,
    rehabilitationService: string,
    assistiveDeviceAssessment: string,
    transportation: string,
    respiteService: string)

  datatype ArrangementField =
    | HomeService
    | RehabilitationService
    | AssistiveDeviceAssessment
    | Transportation
    | RespiteService

  const EmptyArrangement := Arrangement("", "", "", "", "")

  /** The answer held in field `f`. */
  function Answer(a: Arrangement, f: ArrangementField): string
  {
    match f
    case HomeService => a.homeService
    case RehabilitationService => a.rehabilitationService
    case AssistiveDeviceAssessment => a.assistiveDeviceAssessment
    case Transportation => a.transportation
    case RespiteService => a.respiteService
  }

  /** `{ ...prev, [f]: text }` on the arrangement: field `f` holds the new text
      and the other four keep theirs. */
  function SetAnswer(a: Arrangement, f: ArrangementField, text: string): (r: Arrangement)
    ensures Answer(r, f) == text
    ensures forall g :: g != f ==> Answer(r, g) == Answer(a, g)
  {
    match f
    case HomeService => a.(homeService := text)
    case RehabilitationService => a.(rehabilitationService := text)
    case AssistiveDeviceAssessment => a.(assistiveDeviceAssessment := text)
    case Transportation => a.(transportation := text)
    case RespiteService => a.(respiteService := text)
  }

  // ---------------------------------------------------------------------------
  // The page
  // ---------------------------------------------------------------------------

  class Page {
    const store: AssessmentStore
    var selectedProblems: seq<int>
    var careGoals: string
    var arrangement: Arrangement

    /** The page opens with nothing ticked and every text empty. */
    constructor (store: AssessmentStore)
      ensures this.store == store
      ensures selectedProblems == [] && careGoals == "" && arrangement == EmptyArrangement
    {
      this.store := store;
      selectedProblems, careGoals, arrangement := [], "", EmptyArrangement;
    }

    /** `handleProblemChange(problemId, checked)`. */
    method HandleProblemChange(id: int, checked: bool)
      modifies this
      ensures selectedProblems == Toggle(old(selectedProblems), id, checked)
      ensures careGoals == old(careGoals) && arrangement == old(arrangement)
    {
      if checked {
        selectedProblems := selectedProblems + [id];
      } else {
        selectedProblems := Without(selectedProblems, id);
      }
    }

    /** `handleAutoSuggest()`: merges the store's suggestions into the
        selection; the store is only read. */
    method HandleAutoSuggest()
      modifies this
      ensures selectedProblems == MergeSuggestions(old(selectedProblems), AutoSuggest(old(store.Snapshot())))
      ensures careGoals == old(careGoals) && arrangement == old(arrangement)
    {
      var suggestions := AutoSuggest(store.Snapshot());
      selectedProblems := Dedup(selectedProblems + suggestions);
    }

    /** The care-goals text box. */
    method SetCareGoals(text: string)
      modifies this
      ensures careGoals == text
      ensures selectedProblems == old(selectedProblems) && arrangement == old(arrangement)
    {
      careGoals := text;
    }

    /** One of the five service-arrangement text boxes. */
    method SetArrangementField(f: ArrangementField, text: string)
      modifies this
      ensures arrangement == SetAnswer(old(arrangement), f, text)
      ensures selectedProblems == old(selectedProblems) && careGoals == old(careGoals)
    {
      arrangement := SetAnswer(arrangement, f, text);
    }

    /** `handleNext()`: moves the store to step 4 (completion and signature). */
    method HandleNext()
      modifies store
      ensures store.Snapshot() == old(store.Snapshot()).(currentStep := 4)
    {
      store.SetCurrentStep(4);
    }

    /** `handleBack()`: moves the store to step 2 (the comprehensive
        assessment). */
    method HandleBack()
      modifies store
      ensures store.Snapshot() == old(store.Snapshot()).(currentStep := 2)
    {
      store.SetCurrentStep(2);
    }
  }
}
