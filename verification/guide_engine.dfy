/**
 * The rule-based guide (`getRuleBasedDevelopmentGuide`, services/geminiService.ts). From an
 * age, the caregiver's trait checklist and the latest diary entry it grows four line lists:
 * each starts from the age bucket's text (discipline starts empty), trait rules append fixed
 * advice, and, when the caregiver opted in and an entry exists, rules over that entry's meals,
 * snacks, energy split and scolding note append more. Each list is then passed through `uniq`
 * and joined with line feeds.
 *
 * The functions below specify the lists rule by rule; `RuleBasedDevelopmentGuide` is the
 * engine itself, growing local lists step by step as the program does.
 */
module GuideEngine {
  import opened Wrappers
  import opened Text
  import opened Types
  import opened Dedup
  import opened AgeBuckets
  import opened Macros
  import opened Snacks
  import opened Advice

  /** The four de-duplicated line lists behind a guide. */
  datatype Sections = Sections(play: seq<string>, education: seq<string>, nutrition: seq<string>, discipline: seq<string>)

  /** The lines a rule contributes: `lines` when it fires, nothing otherwise. */
  function When(fires: bool, lines: seq<string>): seq<string> {
    if fires then lines else []
  }

  // ---------------------------------------------------------------------------------------
  // Conditions over the latest entry.

  /**
   * The mean of the three raw meal rates is below 80, i.e. their sum is below 240. A missing
   * rate makes the JavaScript sum `NaN`, and every comparison with `NaN` is false.
   */
  predicate LowAverageRate(n: Nutrition) {
    && n.breakfastRate.Some? && n.lunchRate.Some? && n.dinnerRate.Some?
    && n.breakfastRate.value + n.lunchRate.value + n.dinnerRate.value < 240
  }

  /** Some meal rate is exactly 0. */
  predicate SkippedMeal(n: Nutrition) {
    n.breakfastRate == Some(0) || n.lunchRate == Some(0) || n.dinnerRate == Some(0)
  }

  /** The summary line of an energy split, e.g. "• 탄/단/지(대략): 탄 54%, 단 22%, 지 24% (약 370kcal)". */
  function MacroSummary(s: MacroSplit): string {
    "• 탄/단/지(대략): 탄 " + NatToString(s.carbPct) + "%, 단 " + NatToString(s.proteinPct)
    + "%, 지 " + NatToString(s.fatPct) + "% (약 " + NatToString(s.totalKcal) + "kcal)"
  }

  /** The trimmed behaviour and situation joined by a space, trimmed again: the text keywords are looked up in. */
  function DisciplineNote(d: DisciplineRecord): string {
    Trim(Trim(d.behavior.GetOr("")) + " " + Trim(d.situation))
  }

  /** The record-derived rules run only when an entry exists and the caregiver opted in. */
  predicate InsightsApply(t: ChildTraits, latest: Option<DiaryEntry>) {
    latest.Some? && t.useAutoInsights
  }

  // ---------------------------------------------------------------------------------------
  // The four lists before `uniq`, rule after rule in the order the program tests them, from
  // the age bucket's texts and the clamped age `m`.

  function PlayLines(base: string, t: ChildTraits): seq<string> {
    [base]
    + When(t.sleepIssue == HardToSleep, [PlaySunlight])
    + When(t.grossMotorConcern, [PlayGrossShortAndOften, PlayGrossEasierSteps])
    + When(t.fineMotorConcern, [PlayFineFourKinds])
  }

  function EducationLines(base: string, m: nat, t: ChildTraits): seq<string> {
    [base]
    + When(t.sleepIssue == HardToSleep, [EduWindDown])
    + When(t.sleepIssue == FrequentWake, [EduNightWake])
    + When(t.languageConcern, [EduTalkAndWait, EduWhereQuestions])
    + When(t.languageConcern && m >= 12, [EduLanguageScreening])
    + When(t.fineMotorConcern, [EduFreeDrawing])
  }

  /** The base line followed by the nutrition trait lines. */
  function NutritionTraitLines(base: string, m: nat, t: ChildTraits): seq<string> {
    [base]
    + When(t.sleepIssue == FrequentWake, [NutLateSugar])
    + When(t.pickyEating == PickySome, [NutOneBiteTwoChoices, NutReexposure])
    + When(t.pickyEating == PickySevere, [NutSafeFoodFirst, NutSimpleMealRules])
    + When(t.pickyEating == PickySevere && m >= 18, [NutPediatricConsult])
    + When(t.snackOften, [NutFixedSnackTime, NutWeeklySnackCap])
  }

  /** Up to 6 months the infancy line goes in front of everything the trait rules produced. */
  function SeededNutrition(base: string, m: nat, t: ChildTraits): seq<string> {
    var pushed := NutritionTraitLines(base, m, t);
    if m <= 6 then [NutInfancy] + pushed else pushed
  }

  /** `lines` followed by the meal and snack rules' lines. */
  function AddMealAndSnackInsights(lines: seq<string>, n: Nutrition): seq<string> {
    lines
    + When(LowAverageRate(n), [NutLowIntake])
    + When(SkippedMeal(n), [NutSkippedMeals])
    + When(SumCounts(n.snacks) >= 3, [NutManySnacks])
    + When(AfterDinnerCount(n.snacks) >= 1, [NutAfterDinnerSnack])
    + When(HasSugarySnack(n.snacks), [NutSugarySnack])
  }

  /** `lines` followed by the energy-split rules' lines: a summary, then up to three warnings. */
  function AddMacroInsights(lines: seq<string>, m: nat, split: Option<MacroSplit>): seq<string> {
    match split
    case None => lines
    case Some(s) =>
      lines
      + [MacroSummary(s)]
      + When(s.proteinPct < 12, [NutLowProtein])
      + When(s.fatPct < 15 && m <= 36, [NutLowFat])
      + When(s.carbPct > 70, [NutHighCarb])
  }

  /** `lines` followed by every record-derived nutrition line. */
  function AddNutritionInsights(lines: seq<string>, m: nat, n: Nutrition): seq<string> {
    AddMacroInsights(AddMealAndSnackInsights(lines, n), m, CalcMacroPct(n.carbsG, n.proteinG, n.fatG))
  }

  function NutritionLines(base: string, m: nat, t: ChildTraits, latest: Option<DiaryEntry>): seq<string> {
    var seeded := SeededNutrition(base, m, t);
    if InsightsApply(t, latest) then AddNutritionInsights(seeded, m, latest.value.nutrition) else seeded
  }

  /** The lines the scolding count contributes, given the trimmed behaviour and situation. */
  function CountInsights(count: nat, behavior: string, situation: string): seq<string> {
    When(count == 0 && (behavior != "" || situation != ""), [DisNoScolding])
    + When(count >= 1, [DisShortAndConsistent, DisBriefExplanation])
    + When(count >= 3, [DisCooldown, DisFewerRules])
  }

  /** `lines` followed by the lines of each keyword group found in `note`, group by group. */
  function AddKeywordInsights(lines: seq<string>, note: string): seq<string> {
    lines
    + When(ContainsAny(note, ThrowKeywords), [DisThrowing])
    + When(ContainsAny(note, AggressionKeywords), [DisAggressionStop, DisAggressionTriggers])
    + When(ContainsAny(note, TantrumKeywords), [DisTantrum])
    + When(ContainsAny(note, RefusalKeywords), [DisRefusal])
    + When(ContainsAny(note, DangerKeywords), [DisSafety])
  }

  function DisciplineInsights(d: DisciplineRecord): seq<string> {
    AddKeywordInsights(CountInsights(d.count, Trim(d.behavior.GetOr("")), Trim(d.situation)), DisciplineNote(d))
  }

  function DisciplineLines(t: ChildTraits, latest: Option<DiaryEntry>): seq<string> {
    if InsightsApply(t, latest) then DisciplineInsights(latest.value.discipline) else []
  }

  /** The four lists after `uniq`, from the texts of bucket `b` and the clamped age `m`. */
  function ComposeSections(b: Bucket, m: nat, t: ChildTraits, latest: Option<DiaryEntry>): Sections {
    Sections(
      Uniq(PlayLines(b.play, t)),
      Uniq(EducationLines(b.education, m, t)),
      Uniq(NutritionLines(b.nutrition, m, t, latest)),
      Uniq(DisciplineLines(t, latest)))
  }

  /** Each list joined with line feeds; no discipline field when no discipline rule fired. */
  function GuideFor(b: Bucket, m: nat, t: ChildTraits, latest: Option<DiaryEntry>): GuideData {
    var s := ComposeSections(b, m, t, latest);
    GuideData(
      JoinLines(s.play),
      JoinLines(s.education),
      JoinLines(s.nutrition),
      if |DisciplineLines(t, latest)| > 0 then Some(JoinLines(s.discipline)) else None)
  }

  /** The guide for an age: the one for the base bucket of the age and the clamped age. */
  function ComposeGuide(months: JsNumber, t: ChildTraits, latest: Option<DiaryEntry>): GuideData {
    GuideFor(BaseBucket(months), ClampMonths(months), t, latest)
  }

  // ---------------------------------------------------------------------------------------
  // The engine. Each helper is one phase of `getRuleBasedDevelopmentGuide`, growing its lists
  // with pushes; the ghost snapshots only let the verifier follow one push at a time.

  /**
   * Phase 1, the trait checklist (services/geminiService.ts:139-181): the sleep, language and
   * motor rules, then the eating rules.
   */
  method ApplyTraitRules(m: nat, traits: ChildTraits, basePlay: string, baseEducation: string, baseNutrition: string)
    returns (play: seq<string>, edu: seq<string>, nut: seq<string>)
    ensures play == PlayLines(basePlay, traits)
    ensures edu == EducationLines(baseEducation, m, traits)
    ensures nut == SeededNutrition(baseNutrition, m, traits)
  {
    play, edu, nut := ApplyDevelopmentTraitRules(m, traits, basePlay, baseEducation, baseNutrition);
    nut := ApplyEatingTraitRules(m, traits, baseNutrition, nut);
  }

  /** The sleep, language and motor rules (services/geminiService.ts:139-162). */
  method ApplyDevelopmentTraitRules(m: nat, traits: ChildTraits, basePlay: string, baseEducation: string, baseNutrition: string)
    returns (play: seq<string>, edu: seq<string>, nut: seq<string>)
    ensures play == PlayLines(basePlay, traits)
    ensures edu == EducationLines(baseEducation, m, traits)
    ensures nut == [baseNutrition] + When(traits.sleepIssue == FrequentWake, [NutLateSugar])
  {
    play, edu, nut := [basePlay], [baseEducation], [baseNutrition];
    ghost var p, e := play, edu;

    if traits.sleepIssue == HardToSleep {
      edu := edu + [EduWindDown];
      play := play + [PlaySunlight];
    }
    assert edu == e + When(traits.sleepIssue == HardToSleep, [EduWindDown]);
    assert play == p + When(traits.sleepIssue == HardToSleep, [PlaySunlight]);
    p, e := play, edu;
    if traits.sleepIssue == FrequentWake {
      edu := edu + [EduNightWake];
      nut := nut + [NutLateSugar];
    }
    assert edu == e + When(traits.sleepIssue == FrequentWake, [EduNightWake]);
    e := edu;

    if traits.languageConcern {
      edu := edu + [EduTalkAndWait, EduWhereQuestions];
    }
    assert edu == e + When(traits.languageConcern, [EduTalkAndWait, EduWhereQuestions]);
    e := edu;
    if traits.languageConcern && m >= 12 {
      edu := edu + [EduLanguageScreening];
    }
    assert edu == e + When(traits.languageConcern && m >= 12, [EduLanguageScreening]);
    e := edu;

    if traits.grossMotorConcern {
      play := play + [PlayGrossShortAndOften, PlayGrossEasierSteps];
    }
    assert play == p + When(traits.grossMotorConcern, [PlayGrossShortAndOften, PlayGrossEasierSteps]);
    p := play;
    if traits.fineMotorConcern {
      play := play + [PlayFineFourKinds];
      edu := edu + [EduFreeDrawing];
    }
    assert play == p + When(traits.fineMotorConcern, [PlayFineFourKinds]);
    assert edu == e + When(traits.fineMotorConcern, [EduFreeDrawing]);
  }

  /**
   * The picky-eating and snack rules, then the infancy line moved to the front
   * (services/geminiService.ts:164-181), on the nutrition list the sleep rules left.
   */
  method ApplyEatingTraitRules(m: nat, traits: ChildTraits, baseNutrition: string, nut0: seq<string>)
    returns (nut: seq<string>)
    requires nut0 == [baseNutrition] + When(traits.sleepIssue == FrequentWake, [NutLateSugar])
    ensures nut == SeededNutrition(baseNutrition, m, traits)
  {
    nut := nut0;
    ghost var n := nut;
    if traits.pickyEating == PickySome {
      nut := nut + [NutOneBiteTwoChoices, NutReexposure];
    }
    assert nut == n + When(traits.pickyEating == PickySome, [NutOneBiteTwoChoices, NutReexposure]);
    n := nut;
    if traits.pickyEating == PickySevere {
      nut := nut + [NutSafeFoodFirst, NutSimpleMealRules];
    }
    assert nut == n + When(traits.pickyEating == PickySevere, [NutSafeFoodFirst, NutSimpleMealRules]);
    n := nut;
    if traits.pickyEating == PickySevere && m >= 18 {
      nut := nut + [NutPediatricConsult];
    }
    assert nut == n + When(traits.pickyEating == PickySevere && m >= 18, [NutPediatricConsult]);
    n := nut;
    if traits.snackOften {
      nut := nut + [NutFixedSnackTime, NutWeeklySnackCap];
    }
    assert nut == n + When(traits.snackOften, [NutFixedSnackTime, NutWeeklySnackCap]);

    if m <= 6 {
      nut := [NutInfancy] + nut;
    }
  }

  /**
   * The two `reduce` passes over the snacks: the total count, and the count of the snacks
   * whose timing mentions "저녁 후".
   */
  method TallySnacks(snacks: seq<SnackItem>) returns (totalSnacks: nat, afterDinnerSnacks: nat)
    ensures totalSnacks == SumCounts(snacks)
    ensures afterDinnerSnacks == AfterDinnerCount(snacks)
  {
    totalSnacks := 0;
    var i := 0;
    while i < |snacks|
      invariant 0 <= i <= |snacks|
      invariant totalSnacks == SumCounts(snacks[..i])
    {
      assert snacks[..i + 1][..i] == snacks[..i];
      totalSnacks := totalSnacks + snacks[i].count;
      i := i + 1;
    }
    afterDinnerSnacks := 0;
    i := 0;
    while i < |snacks|
      invariant 0 <= i <= |snacks|
      invariant afterDinnerSnacks == AfterDinnerCount(snacks[..i])
    {
      assert snacks[..i + 1][..i] == snacks[..i];
      if IsAfterDinner(snacks[i]) {
        afterDinnerSnacks := afterDinnerSnacks + snacks[i].count;
      }
      i := i + 1;
    }
    assert snacks[..|snacks|] == snacks;
  }

  /** Phase 2a, the meals and snacks of the latest entry (services/geminiService.ts:187-214). */
  method ApplyMealAndSnackRules(nut0: seq<string>, n: Nutrition) returns (nut: seq<string>)
    ensures nut == AddMealAndSnackInsights(nut0, n)
  {
    nut := nut0;
    ghost var s := nut;
    if LowAverageRate(n) {
      nut := nut + [NutLowIntake];
    }
    assert nut == s + When(LowAverageRate(n), [NutLowIntake]);
    s := nut;
    if SkippedMeal(n) {
      nut := nut + [NutSkippedMeals];
    }
    assert nut == s + When(SkippedMeal(n), [NutSkippedMeals]);
    s := nut;

    var totalSnacks, afterDinnerSnacks := TallySnacks(n.snacks);
    var sugary := HasSugarySnack(n.snacks);
    if totalSnacks >= 3 {
      nut := nut + [NutManySnacks];
    }
    assert nut == s + When(SumCounts(n.snacks) >= 3, [NutManySnacks]);
    s := nut;
    if afterDinnerSnacks >= 1 {
      nut := nut + [NutAfterDinnerSnack];
    }
    assert nut == s + When(AfterDinnerCount(n.snacks) >= 1, [NutAfterDinnerSnack]);
    s := nut;
    if sugary {
      nut := nut + [NutSugarySnack];
    }
    assert nut == s + When(HasSugarySnack(n.snacks), [NutSugarySnack]);
  }

  /** Phase 2b, the energy split of the latest entry (services/geminiService.ts:216-229). */
  method ApplyMacroRules(nut0: seq<string>, m: nat, macro: Option<MacroSplit>) returns (nut: seq<string>)
    ensures nut == AddMacroInsights(nut0, m, macro)
  {
    nut := nut0;
    if macro.Some? {
      var split := macro.value;
      nut := nut + [MacroSummary(split)];
      ghost var s := nut;
      if split.proteinPct < 12 {
        nut := nut + [NutLowProtein];
      }
      assert nut == s + When(split.proteinPct < 12, [NutLowProtein]);
      s := nut;
      if split.fatPct < 15 && m <= 36 {
        nut := nut + [NutLowFat];
      }
      assert nut == s + When(split.fatPct < 15 && m <= 36, [NutLowFat]);
      s := nut;
      if split.carbPct > 70 {
        nut := nut + [NutHighCarb];
      }
      assert nut == s + When(split.carbPct > 70, [NutHighCarb]);
    }
  }

  /** Phase 2c, the scolding count (services/geminiService.ts:231-247). */
  method ApplyCountRules(dCount: nat, behavior: string, situation: string) returns (dis: seq<string>)
    ensures dis == CountInsights(dCount, behavior, situation)
  {
    dis := [];
    if dCount == 0 && (behavior != "" || situation != "") {
      dis := dis + [DisNoScolding];
    }
    assert dis == When(dCount == 0 && (behavior != "" || situation != ""), [DisNoScolding]);
    ghost var s := dis;
    if dCount >= 1 {
      dis := dis + [DisShortAndConsistent, DisBriefExplanation];
    }
    assert dis == s + When(dCount >= 1, [DisShortAndConsistent, DisBriefExplanation]);
    s := dis;
    if dCount >= 3 {
      dis := dis + [DisCooldown, DisFewerRules];
    }
    assert dis == s + When(dCount >= 3, [DisCooldown, DisFewerRules]);
  }

  /** Phase 2d, the keyword groups, each checked on its own (services/geminiService.ts:249-269). */
  method ApplyKeywordRules(dis0: seq<string>, text: string) returns (dis: seq<string>)
    ensures dis == AddKeywordInsights(dis0, text)
  {
    dis := dis0;
    ghost var s := dis;
    if ContainsAny(text, ThrowKeywords) {
      dis := dis + [DisThrowing];
    }
    assert dis == s + When(ContainsAny(text, ThrowKeywords), [DisThrowing]);
    s := dis;
    if ContainsAny(text, AggressionKeywords) {
      dis := dis + [DisAggressionStop, DisAggressionTriggers];
    }
    assert dis == s + When(ContainsAny(text, AggressionKeywords), [DisAggressionStop, DisAggressionTriggers]);
    s := dis;
    if ContainsAny(text, TantrumKeywords) {
      dis := dis + [DisTantrum];
    }
    assert dis == s + When(ContainsAny(text, TantrumKeywords), [DisTantrum]);
    s := dis;
    if ContainsAny(text, RefusalKeywords) {
      dis := dis + [DisRefusal];
    }
    assert dis == s + When(ContainsAny(text, RefusalKeywords), [DisRefusal]);
    s := dis;
    if ContainsAny(text, DangerKeywords) {
      dis := dis + [DisSafety];
    }
    assert dis == s + When(ContainsAny(text, DangerKeywords), [DisSafety]);
  }

  /**
   * `getRuleBasedDevelopmentGuide`: the base bucket's texts seed the lists, the trait rules
   * run, the record rules run only for an opted-in caregiver with an entry, and each list is
   * de-duplicated and joined. The result is exactly the guide the rules above describe.
   */
  method RuleBasedDevelopmentGuide(months: JsNumber, traits: ChildTraits, latest: Option<DiaryEntry>)
    returns (g: GuideData)
    ensures g == ComposeGuide(months, traits, latest)
  {
    var base := StaticGuide(months);
    var m := ClampMonths(months);
    var play, edu, nut := ApplyTraitRules(m, traits, base.play, base.education, base.nutrition);
    var dis: seq<string> := [];
    if latest.Some? && traits.useAutoInsights {
      var entry := latest.value;
      nut := ApplyMealAndSnackRules(nut, entry.nutrition);
      var macro := CalcMacroPct(entry.nutrition.carbsG, entry.nutrition.proteinG, entry.nutrition.fatG);
      nut := ApplyMacroRules(nut, m, macro);

      var behavior := Trim(entry.discipline.behavior.GetOr(""));
      var situation := Trim(entry.discipline.situation);
      var text := Trim(behavior + " " + situation);
      dis := ApplyCountRules(entry.discipline.count, behavior, situation);
      dis := ApplyKeywordRules(dis, text);
    }
    g := GuideData(
      JoinLines(Uniq(play)),
      JoinLines(Uniq(edu)),
      JoinLines(Uniq(nut)),
      if |dis| > 0 then Some(JoinLines(Uniq(dis))) else None);
  }
}
