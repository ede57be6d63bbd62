/**
 * The two decision helpers of the psychological-intervention test suite:
 * the priority-ordered module recommendation rule and the check that a
 * sequence of CBT modules follows the permitted successor table.
 *
 * Both helpers are pure; the recommendation rule is a function and the
 * sequence check, which the program writes as a loop over indices with an
 * early exit, is a method proved against the predicate `ValidSequence`.
 */
module InterventionLogic {
  import opened Wrappers

  // ---------------------------------------------------------------------
  // Client data
  // ---------------------------------------------------------------------

  /** One entry of `current_assessments`; either key may be absent from its dictionary. */
  datatype Assessment = Assessment(kind: Option<string>, score: Option<int>)

  /**
   * The keys of `client_data` that the rule reads. Any of them may be absent;
   * other keys (`user_id`, `assessment_history`, `age`, ...) are never read.
   */
  datatype ClientData = ClientData(
    currentAssessments: Option<seq<Assessment>>,
    completedModules: Option<seq<int>>,
    wellnessScore: Option<real>)

  datatype Priority = Crisis | High | Medium | Low
  /** The dictionary the rule returns; its only keys are module id, module name, reason and priority (no `customization`). */
  datatype Recommendation = Recommendation(moduleId: int, moduleName: string, reason: string, priority: Priority)

  /** The CBT module catalogue of the test fixture, ids 1 to 8. */
  function ModuleName(id: int): Option<string> {
    match id
    case 1 => Some("Sleep Hygiene")
    case 2 => Some("Psychoeducation")
    case 3 => Some("Cognitive Restructuring")
    case 4 => Some("Mindfulness Practice")
    case 5 => Some("Behavioral Activation")
    case 6 => Some("Relapse Prevention")
    case 7 => Some("Social Skills Training")
    case 8 => Some("Exposure Therapy")
    case _ => None
  }

  const GAD7: string := "GAD-7"
  const PHQ9: string := "PHQ-9"
  const SevereScore: int := 15
  const CrisisScore: int := 24
  const MaintenanceWellness: real := 8.0
  const MaintenanceModules: int := 4

  // The six dictionaries the rule can return.
  const CognitiveRestructuring := Recommendation(3, "Cognitive Restructuring", "High anxiety levels detected", High)
  const MindfulnessPractice := Recommendation(4, "Mindfulness Practice", "Anxiety management progression", High)
  const BehavioralActivation := Recommendation(5, "Behavioral Activation", "Depression symptoms detected", High)
  const CrisisManagement := Recommendation(99, "Crisis Management", "Immediate intervention required", Crisis)
  const RelapsePrevention := Recommendation(6, "Relapse Prevention", "Maintenance and progress consolidation", Low)
  const SleepHygiene := Recommendation(1, "Sleep Hygiene", "Foundation wellness improvement", Medium)

  // ---------------------------------------------------------------------
  // Reading the client data, with the defaults of `dict.get`
  // ---------------------------------------------------------------------

  function Assessments(client: ClientData): seq<Assessment> { client.currentAssessments.GetOr([]) }

  function Completed(client: ClientData): seq<int> { client.completedModules.GetOr([]) }

  function Wellness(client: ClientData): real { client.wellnessScore.GetOr(5.0) }

  /** A missing score reads as 0. */
  function Score(a: Assessment): int { a.score.GetOr(0) }

  predicate IsSevere(a: Assessment, kind: string) {
    Score(a) >= SevereScore && a.kind == Some(kind)
  }

  predicate IsCrisisLevel(a: Assessment) {
    Score(a) >= CrisisScore
  }

  /** Python's `any(p(a) for a in s)`. */
  function Any(s: seq<Assessment>, p: Assessment -> bool): (b: bool)
    ensures b <==> exists i :: 0 <= i < |s| && p(s[i])
  {
    if s == [] then false else p(s[0]) || Any(s[1..], p)
  }

  /** Some assessment is GAD-7 with score at least 15. */
  predicate AnxietyIndicated(client: ClientData) {
    Any(Assessments(client), a => IsSevere(a, GAD7))
  }

  /** Some assessment is PHQ-9 with score at least 15. */
  predicate DepressionIndicated(client: ClientData) {
    Any(Assessments(client), a => IsSevere(a, PHQ9))
  }

  /** Some assessment, of any type, has score at least 24. */
  predicate CrisisIndicated(client: ClientData) {
    Any(Assessments(client), IsCrisisLevel)
  }

  // ---------------------------------------------------------------------
  // get_module_recommendation
  // ---------------------------------------------------------------------

  /**
   * The priority-ordered rule: anxiety (modules 3 then 4), depression
   * (module 5), crisis (99), maintenance (6), otherwise the foundation
   * module 1. Its result is always one of the six dictionaries above,
   * names a catalogue module unless it is the crisis referral, and is
   * never Exposure Therapy.
   */
  function GetModuleRecommendation(client: ClientData): (r: Recommendation)
    ensures r in {CognitiveRestructuring, MindfulnessPractice, BehavioralActivation,
                  CrisisManagement, RelapsePrevention, SleepHygiene}
    ensures r.moduleId in {1, 3, 4, 5, 6, 99} && r.moduleId != 8
    ensures r.moduleId != 99 ==> ModuleName(r.moduleId) == Some(r.moduleName)
    ensures r.moduleId == 99 <==> r.priority == Crisis
  {
    var completed := Completed(client);
    if AnxietyIndicated(client) && 3 !in completed then CognitiveRestructuring
    else if AnxietyIndicated(client) && 4 !in completed then MindfulnessPractice
    else if DepressionIndicated(client) && 5 !in completed then BehavioralActivation
    else if CrisisIndicated(client) then CrisisManagement
    else if Wellness(client) >= MaintenanceWellness && |completed| >= MaintenanceModules then RelapsePrevention
    else SleepHygiene
  }

  /** The anxiety rule returns: a severe GAD-7 and module 3 or 4 still open. */
  predicate AnxietyRuleFires(client: ClientData) {
    AnxietyIndicated(client) && !(3 in Completed(client) && 4 in Completed(client))
  }

  /** The depression rule returns: a severe PHQ-9 and module 5 still open. */
  predicate DepressionRuleFires(client: ClientData) {
    DepressionIndicated(client) && 5 !in Completed(client)
  }

  lemma SevereAnxietyStartsWithCognitiveRestructuring(client: ClientData, i: int)
    requires 0 <= i < |Assessments(client)|
    requires Assessments(client)[i].kind == Some("GAD-7") && Score(Assessments(client)[i]) >= 15
    requires 3 !in Completed(client)
    ensures GetModuleRecommendation(client).moduleId == 3
    ensures GetModuleRecommendation(client).moduleName == "Cognitive Restructuring"
    ensures GetModuleRecommendation(client).priority == High
  {
  }

  lemma SevereAnxietyProgressesToMindfulness(client: ClientData, i: int)
    requires 0 <= i < |Assessments(client)|
    requires Assessments(client)[i].kind == Some("GAD-7") && Score(Assessments(client)[i]) >= 15
    requires 3 in Completed(client) && 4 !in Completed(client)
    ensures GetModuleRecommendation(client).moduleId == 4
    ensures GetModuleRecommendation(client).moduleName == "Mindfulness Practice"
    ensures GetModuleRecommendation(client).priority == High
  {
  }

  /**
   * Once modules 3 and 4 are both completed the anxiety rule never answers,
   * whatever the GAD-7 scores: evaluation falls through to the later rules.
   */
  lemma CompletedAnxietyModulesFallThrough(client: ClientData)
    requires 3 in Completed(client) && 4 in Completed(client)
    ensures !AnxietyRuleFires(client)
    ensures GetModuleRecommendation(client).moduleId !in {3, 4}
  {
  }

  /** Anxiety is checked before depression: comorbid clients start with module 3. */
  lemma AnxietyBeforeDepression(client: ClientData)
    requires AnxietyIndicated(client) && DepressionIndicated(client)
    requires Completed(client) == []
    ensures GetModuleRecommendation(client) == CognitiveRestructuring
  {
  }

  /** The depression rule answers exactly when it fires and the anxiety rule does not. */
  lemma BehavioralActivationExactly(client: ClientData)
    ensures GetModuleRecommendation(client) == BehavioralActivation
        <==> !AnxietyRuleFires(client) && DepressionRuleFires(client)
  {
  }

  /**
   * The crisis referral is given exactly when no earlier rule returned and
   * some score reaches 24: a crisis-level score does not override an open
   * anxiety or depression module.
   */
  lemma CrisisOnlyAfterEarlierRules(client: ClientData)
    ensures GetModuleRecommendation(client).priority == Crisis
        <==> !AnxietyRuleFires(client) && !DepressionRuleFires(client) && CrisisIndicated(client)
  {
  }

  /** Maintenance: no earlier rule, wellness at least 8 and at least four completions (duplicates counted). */
  lemma MaintenanceExactly(client: ClientData)
    ensures GetModuleRecommendation(client) == RelapsePrevention
        <==> && !AnxietyRuleFires(client) && !DepressionRuleFires(client) && !CrisisIndicated(client)
             && Wellness(client) >= 8.0 && |Completed(client)| >= 4
  {
  }

  /** The foundation module is the default: it is returned exactly when no other rule applies. */
  lemma DefaultExactly(client: ClientData)
    ensures GetModuleRecommendation(client) == SleepHygiene
        <==> && !AnxietyRuleFires(client) && !DepressionRuleFires(client) && !CrisisIndicated(client)
             && !(Wellness(client) >= 8.0 && |Completed(client)| >= 4)
  {
  }

  /** Duplicate completions count towards the maintenance threshold. */
  lemma DuplicateCompletionsCount()
    ensures GetModuleRecommendation(ClientData(Some([]), Some([2, 2, 2, 2]), Some(9.0))) == RelapsePrevention
  {
  }

  /** All keys missing: no assessments, nothing completed, wellness 5.0, so the default. */
  lemma MissingKeysGiveDefault()
    ensures GetModuleRecommendation(ClientData(None, None, None)) == SleepHygiene
  {
  }

  /** A GAD-7 assessment without a score reads as score 0 and does not trigger the anxiety rule. */
  lemma MissingScoreReadsAsZero(completed: seq<int>)
    ensures !AnxietyIndicated(ClientData(Some([Assessment(Some(GAD7), None)]), Some(completed), None))
  {
  }

  // ---------------------------------------------------------------------
  // The suite's own scenarios, as the helper code answers them
  // ---------------------------------------------------------------------

  /** Severe anxiety (18): Cognitive Restructuring; after module 3 and GAD-7 10 the default, not Mindfulness. */
  lemma SevereAnxietyPathway()
    ensures GetModuleRecommendation(ClientData(Some([Assessment(Some(GAD7), Some(18))]), Some([]), Some(3.2)))
         == CognitiveRestructuring
    ensures GetModuleRecommendation(ClientData(Some([Assessment(Some(GAD7), Some(10))]), Some([3]), Some(6.8)))
         == SleepHygiene
  {
  }

  /** Moderate depression (PHQ-9 15): Behavioral Activation, high priority. */
  lemma DepressionPathway()
    ensures GetModuleRecommendation(ClientData(Some([Assessment(Some(PHQ9), Some(15))]), Some([]), Some(4.1)))
         == BehavioralActivation
  {
  }

  /** Comorbid case (GAD-7 16, PHQ-9 14): the anxiety module comes first. */
  lemma ComorbidScenario()
    ensures GetModuleRecommendation(ClientData(
              Some([Assessment(Some(GAD7), Some(16)), Assessment(Some(PHQ9), Some(14))]),
              Some([]), Some(3.5))) == CognitiveRestructuring
  {
  }

  /**
   * The crisis scenario (PHQ-9 25, nothing completed) gets Behavioral
   * Activation with priority high, not a crisis priority: the depression
   * rule returns first.
   */
  lemma CrisisScenarioGetsBehavioralActivation()
    ensures GetModuleRecommendation(ClientData(Some([Assessment(Some(PHQ9), Some(25))]), Some([]), Some(1.8)))
         == BehavioralActivation
  {
  }

  /**
   * The threshold scenario passes its scores under `assessment_history`,
   * which the rule never reads: with no current assessments and wellness
   * 4.2 or 7.1 the answer is Sleep Hygiene, not Mindfulness Practice.
   */
  lemma ThresholdScenarioGetsDefault(wellness: real)
    requires wellness < 8.0
    ensures GetModuleRecommendation(ClientData(None, Some([3]), Some(wellness))) == SleepHygiene
  {
  }

  /** Maintenance scenario: low scores, five completions, wellness 8.7: Relapse Prevention, low priority. */
  lemma MaintenanceScenario()
    ensures GetModuleRecommendation(ClientData(
              Some([Assessment(Some(GAD7), Some(3)), Assessment(Some(PHQ9), Some(4))]),
              Some([1, 2, 3, 4, 5]), Some(8.7))) == RelapsePrevention
  {
  }

  /**
   * The personalisation scenario (GAD-7 12) gets the default dictionary,
   * which has no `customization` key, so the suite's lookup of it yields
   * the empty string.
   */
  lemma PersonalisationScenarioHasNoCustomization()
    ensures GetModuleRecommendation(ClientData(Some([Assessment(Some(GAD7), Some(12))]), Some([]), Some(5.2)))
         == SleepHygiene
  {
  }

  /** Severe depression and anxiety with modules 3 and 4 done: Behavioral Activation, never Exposure Therapy. */
  lemma ContraindicationScenario()
    ensures GetModuleRecommendation(ClientData(
              Some([Assessment(Some(PHQ9), Some(22)), Assessment(Some(GAD7), Some(16))]),
              Some([3, 4]), Some(3.1))) == BehavioralActivation
  {
  }

  // ---------------------------------------------------------------------
  // validate_intervention_sequence
  // ---------------------------------------------------------------------

  /** The permitted successors of each constrained module. */
  const ValidProgressions: map<int, seq<int>> :=
    map[3 := [4, 8], 4 := [6, 7], 5 := [7, 6], 1 := [2, 3, 5], 2 := [3, 5]]

  /** A pair is allowed unless its first module is constrained and the second is not among its successors. */
  predicate MayFollow(current: int, next: int) {
    current in ValidProgressions ==> next in ValidProgressions[current]
  }

  /** Every adjacent pair is allowed. */
  predicate ValidSequence(s: seq<int>) {
    forall i :: 0 <= i < |s| - 1 ==> MayFollow(s[i], s[i + 1])
  }

  /** The same condition, read pair by pair from the front. */
  predicate ChainValid(s: seq<int>)
    decreases |s|
  {
    |s| < 2 || (MayFollow(s[0], s[1]) && ChainValid(s[1..]))
  }

  /**
   * The check walks the adjacent pairs in order and answers false at the
   * first pair whose first module is in the table and whose second module
   * is not among its successors; otherwise true.
   */
  method ValidateInterventionSequence(moduleSequence: seq<int>) returns (valid: bool)
    ensures valid <==> ValidSequence(moduleSequence)
    ensures !valid <==> exists i :: 0 <= i < |moduleSequence| - 1
                         && moduleSequence[i] in ValidProgressions
                         && moduleSequence[i + 1] !in ValidProgressions[moduleSequence[i]]
  {
    var i := 0;
    while i < |moduleSequence| - 1
      invariant 0 <= i && (i == 0 || i <= |moduleSequence| - 1)
      invariant forall j :: 0 <= j < i ==> MayFollow(moduleSequence[j], moduleSequence[j + 1])
    {
      var currentModule := moduleSequence[i];
      var nextModule := moduleSequence[i + 1];
      if currentModule in ValidProgressions {
        if nextModule !in ValidProgressions[currentModule] {
          return false;
        }
      }
      i := i + 1;
    }
    return true;
  }

  lemma {:induction false} ChainValidIffValidSequence(s: seq<int>)
    ensures ChainValid(s) <==> ValidSequence(s)
    decreases |s|
  {
    if |s| >= 2 {
      ChainValidIffValidSequence(s[1..]);
      var tail := s[1..];
      assert forall i :: 0 <= i < |tail| ==> tail[i] == s[i + 1];
      if ValidSequence(s) {
        assert MayFollow(s[0], s[1]);
        assert ValidSequence(s[1..]);
      }
      if MayFollow(s[0], s[1]) && ValidSequence(s[1..]) {
        forall i | 0 <= i < |s| - 1 ensures MayFollow(s[i], s[i + 1]) {
          if i > 0 {
            assert MayFollow(s[1..][i - 1], s[1..][i]);
          }
        }
      }
    }
  }

  /** Sequences of at most one module are valid. */
  lemma ShortSequencesAreValid(s: seq<int>)
    requires |s| <= 1
    ensures ValidSequence(s)
  {
  }

  /** Validity is closed under taking contiguous sub-sequences. */
  lemma ValidSlice(s: seq<int>, lo: int, hi: int)
    requires ValidSequence(s)
    requires 0 <= lo <= hi <= |s|
    ensures ValidSequence(s[lo..hi])
  {
    forall i | 0 <= i < hi - lo - 1 ensures MayFollow(s[lo..hi][i], s[lo..hi][i + 1]) {
      assert s[lo..hi][i] == s[lo + i] && s[lo..hi][i + 1] == s[lo + i + 1];
    }
  }

  /** Two sequences join into a valid one iff both are valid and the seam pair is allowed. */
  lemma ValidConcat(a: seq<int>, b: seq<int>)
    ensures ValidSequence(a + b)
        <==> ValidSequence(a) && ValidSequence(b) && (a == [] || b == [] || MayFollow(a[|a| - 1], b[0]))
  {
    var ab := a + b;
    if ValidSequence(ab) {
      ValidSlice(ab, 0, |a|);
      ValidSlice(ab, |a|, |ab|);
      assert ab[..|a|] == a && ab[|a|..] == b;
      if a != [] && b != [] {
        assert MayFollow(ab[|a| - 1], ab[|a|]);
      }
    }
    if ValidSequence(a) && ValidSequence(b) && (a == [] || b == [] || MayFollow(a[|a| - 1], b[0])) {
      forall i | 0 <= i < |ab| - 1 ensures MayFollow(ab[i], ab[i + 1]) {
        if i + 1 < |a| {
          assert MayFollow(a[i], a[i + 1]);
        } else if i >= |a| {
          assert MayFollow(b[i - |a|], b[i - |a| + 1]);
        }
      }
    }
  }

  /** Modules 6, 7 and 8 have no entry in the table, so nothing after them is refused. */
  lemma TerminalModulesAreUnconstrained(current: int, next: int)
    requires current in {6, 7, 8}
    ensures ValidSequence([current, next])
  {
  }

  /** The suite's four "valid" progressions are valid. */
  lemma SuiteValidProgressions()
    ensures ValidSequence([3, 4]) && ValidSequence([5, 7]) && ValidSequence([1, 2]) && ValidSequence([4, 6])
  {
  }

  /** The suite's two "invalid" progressions are accepted by the table: 8 and 6 have no successor list. */
  lemma SuiteInvalidProgressionsAreAccepted()
    ensures ValidSequence([8, 1]) && ValidSequence([6, 3])
  {
  }

  /** The table does refuse pairs, for instance Cognitive Restructuring followed by Behavioral Activation. */
  lemma SomeProgressionsAreRefused()
    ensures !ValidSequence([3, 5]) && !ValidSequence([1, 4]) && !ValidSequence([2, 2, 3])
  {
    var s1, s2, s3 := [3, 5], [1, 4], [2, 2, 3];
    assert !MayFollow(s1[0], s1[1]);
    assert !MayFollow(s2[0], s2[1]);
    assert !MayFollow(s3[0], s3[1]);
  }
}
