/** The fixed reference data of the assessment: the catalog of 34 care
    problems and the enumerations the rule engine tests against. */
module Catalog {

  import opened Wrappers

  /** One catalog entry: a problem number and its label. */
  datatype CareProblem = CareProblem(id: int, name: string)

  /** The care-problem catalog, in display order. */
  const CareProblems: seq<CareProblem> := [
    CareProblem(1, "進食問題"),
    CareProblem(2, "洗澡問題"),
    CareProblem(3, "個人修飾問題"),
    CareProblem(4, "穿脫衣物問題"),
    CareProblem(5, "大小便控制問題"),
    CareProblem(6, "上廁所問題"),
    CareProblem(7, "移位問題"),
    CareProblem(8, "走路問題"),
    CareProblem(9, "上下樓梯問題"),
    CareProblem(10, "使用電話問題"),
    CareProblem(11, "購物或外出問題"),
    CareProblem(12, "備餐問題"),
    CareProblem(13, "處理家務問題"),
    CareProblem(14, "用藥問題"),
    CareProblem(15, "處理財務問題"),
    CareProblem(16, "溝通問題"),
    CareProblem(17, "短期記憶障礙"),
    CareProblem(18, "疼痛問題"),
    CareProblem(19, "不動症候群風險"),
    CareProblem(20, "皮膚照護問題"),
    CareProblem(21, "傷口問題"),
    CareProblem(22, "水份及營養問題"),
    CareProblem(23, "吞嚥問題"),
    CareProblem(24, "管路照顧問題"),
    CareProblem(25, "其他醫療照護問題"),
    CareProblem(26, "跌倒風險"),
    CareProblem(27, "安全疑慮"),
    CareProblem(28, "居住環境障礙"),
    CareProblem(29, "社會參與需協助"),
    CareProblem(30, "困擾行為"),
    CareProblem(31, "照顧負荷過重"),
    CareProblem(32, "輔具使用問題"),
    CareProblem(33, "感染問題"),
    CareProblem(34, "其他問題")
  ]

  /** The catalog has 34 entries and the entry at index i has id i + 1, so the
      ids are unique and cover 1..34 exactly. */
  lemma CatalogIdsAreContiguous()
    ensures |CareProblems| == CatalogSize
    ensures forall i :: 0 <= i < |CareProblems| ==> CareProblems[i].id == i + 1
    ensures forall i, j :: 0 <= i < j < |CareProblems| ==> CareProblems[i].id != CareProblems[j].id
  {
    forall i | 0 <= i < |CareProblems| ensures CareProblems[i].id == i + 1 {
      assert i == 0 || i == 1 || i == 2 || i == 3 || i == 4 || i == 5 || i == 6 || i == 7 || i == 8
          || i == 9 || i == 10 || i == 11 || i == 12 || i == 13 || i == 14 || i == 15 || i == 16 || i == 17
          || i == 18 || i == 19 || i == 20 || i == 21 || i == 22 || i == 23 || i == 24 || i == 25 || i == 26
          || i == 27 || i == 28 || i == 29 || i == 30 || i == 31 || i == 32 || i == 33;
    }
  }

  /** The label of catalog problem `id`, read by position. */
  function NameOf(id: int): (r: Option<string>)
    ensures r.Some? <==> IsCatalogId(id)
  {
    if IsCatalogId(id) then Some(CareProblems[id - 1].name) else None
  }

  /** `entries.find(p => p.id === id)?.name`: the label of the first entry with
      that id. */
  function Find(entries: seq<CareProblem>, id: int): (r: Option<string>)
    ensures r.Some? <==> exists i :: 0 <= i < |entries| && entries[i].id == id
    ensures r.Some? ==> exists i :: 0 <= i < |entries| && entries[i].id == id && entries[i].name == r.value
                                    && forall j :: 0 <= j < i ==> entries[j].id != id
  {
    if entries == [] then None
    else if entries[0].id == id then Some(entries[0].name)
    else
      var r := Find(entries[1..], id);
      assert forall i :: 0 < i < |entries| ==> entries[i] == entries[1..][i - 1];
      r
  }

  /** Looking a problem up with `find`, as the care-plan page does to show the
      labels of the selected problems, gives the label at position id - 1, and
      nothing for a number outside the catalog. */
  lemma FindIsNameOf(id: int)
    ensures Find(CareProblems, id) == NameOf(id)
  {
    CatalogIdsAreContiguous();
  }

  /** The number of catalog entries. */
  const CatalogSize := 34

  /** A problem number is a catalog id. */
  predicate IsCatalogId(id: int)
  {
    1 <= id <= CatalogSize
  }

  /** The labels of the problems the rule engine can suggest. */
  lemma SuggestedProblemNames()
    ensures NameOf(5) == Some("大小便控制問題")
    ensures NameOf(6) == Some("上廁所問題")
    ensures NameOf(14) == Some("用藥問題")
    ensures NameOf(17) == Some("短期記憶障礙")
    ensures NameOf(20) == Some("皮膚照護問題")
    ensures NameOf(21) == Some("傷口問題")
    ensures NameOf(26) == Some("跌倒風險")
  {
  }

  // ---------------------------------------------------------------------------
  // Enumerations
  // ---------------------------------------------------------------------------

  /** `HealthMedical.medicationStatus`. */
  const MedicationStatuses: seq<string> :=
    ["stable", "reminder", "partial_help", "full_help", "poor_compliance", "none"]

  /** The medication statuses that mean the client needs help with medication. */
  const MedicationHelpStatuses: seq<string> :=
    ["reminder", "partial_help", "full_help", "poor_compliance"]

  /** `MentalFunction.memoryStatus`. */
  const MemoryStatuses: seq<string> := ["normal", "short_term_poor"]

  /** `RiskAlert.type`. */
  const AlertKinds: seq<string> := ["fall", "pressure_injury", "nutrition", "other"]

  /** `RiskAlert.severity`. */
  const Severities: seq<string> := ["high", "medium", "low"]

  /** A risk alert as the rule engine builds it. */
  datatype RiskAlert = RiskAlert(kind: string, message: string, severity: string)

  /** A well-formed alert has a declared kind and a declared severity. */
  predicate ValidAlert(a: RiskAlert)
  {
    a.kind in AlertKinds && a.severity in Severities
  }

  /** Muscle strength is graded 1 (weakest) to 5 (full strength). */
  const MinStrength := 1
  const MaxStrength := 5

  /** The enumerations have the declared number of distinct values, and the
      help statuses are four of the six medication statuses, leaving out
      'stable' and 'none'. */
  lemma EnumerationsAreDistinct()
    ensures |MedicationStatuses| == 6 && |MemoryStatuses| == 2
    ensures |AlertKinds| == 4 && |Severities| == 3
    ensures forall i, j :: 0 <= i < j < |MedicationStatuses| ==> MedicationStatuses[i] != MedicationStatuses[j]
    ensures forall i, j :: 0 <= i < j < |AlertKinds| ==> AlertKinds[i] != AlertKinds[j]
    ensures forall i, j :: 0 <= i < j < |Severities| ==> Severities[i] != Severities[j]
    ensures forall v :: v in MedicationHelpStatuses ==> v in MedicationStatuses
    ensures forall v :: v in MedicationStatuses ==> (v in MedicationHelpStatuses <==> v != "stable" && v != "none")
  {
  }
}
