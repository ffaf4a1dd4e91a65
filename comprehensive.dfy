/** The comprehensive-assessment step of the wizard (step 2): four tabs, one
    shown at a time, and the moves to the neighbouring steps. */
module ComprehensivePage {

  import opened Store

  /** One tab: its position, its label and its key. */
  datatype Tab = Tab(id: nat, name: string, key: string)

  /** The four tabs, in display order. */
  const Tabs: seq<Tab> := [
    Tab(0, "健康醫療", "health"),
    Tab(1, "生理身體", "physical"),
    Tab(2, "社會家庭", "social"),
    Tab(3, "居住環境", "environment")]

  /** The tab at position i has id i, and the keys are distinct, so a tab id
      names exactly one tab. */
  lemma {:induction false} TabIdsArePositions()
    ensures |Tabs| == 4
    ensures forall i :: 0 <= i < |Tabs| ==> Tabs[i].id == i
    ensures forall i, j :: 0 <= i < j < |Tabs| ==> Tabs[i].key != Tabs[j].key
  {
    forall i | 0 <= i < |Tabs| ensures Tabs[i].id == i {
      assert i == 0 || i == 1 || i == 2 || i == 3;
    }
  }

  class Page {
    const store: AssessmentStore
    var activeTab: nat

    /** The page opens on the first tab (health and medical). */
    constructor (store: AssessmentStore)
      ensures this.store == store && activeTab == 0
    {
      this.store := store;
      activeTab := 0;
    }

    /** Clicking a tab button shows the tab with that id. */
    method ClickTab(t: Tab)
      requires t in Tabs
      modifies this
      ensures activeTab == t.id && activeTab < |Tabs| && Tabs[activeTab] == t
    {
      TabIdsArePositions();
      activeTab := t.id;
    }

    /** `handleNext()`: moves the store to step 3 (the care plan). */
    method HandleNext()
      modifies store
      ensures store.Snapshot() == old(store.Snapshot()).(currentStep := 3)
    {
      store.SetCurrentStep(3);
    }

    /** `handleBack()`: moves the store back to step 1 (basic information). */
    method HandleBack()
      modifies store
      ensures store.Snapshot() == old(store.Snapshot()).(currentStep := 1)
    {
      store.SetCurrentStep(1);
    }
  }
}
