/**
 * What the rule-based guide (services/geminiService.ts) promises. Each line list is first
 * characterised line by line (a line is in the list exactly when its rule fires); `uniq` then
 * keeps exactly the lines of each list, because every line is already trimmed and non-empty;
 * so each advice line is in the guide exactly when its rule fires. The opt-out leaves the
 * latest entry unused, and every section but discipline starts with the age bucket's text.
 *
 * The lemmas take the bucket `b` and the clamped age `m` as parameters; `ComposeGuide` uses
 * `BaseBucket(months)`, which is one of the tables' buckets, and every bucket of the tables
 * satisfies `BaseTexts` (`AgeBuckets.BucketTexts`).
 */
module GuideProperties {
  import opened Wrappers
  import opened Text
  import opened Types
  import opened Dedup
  import opened AgeBuckets
  import opened Macros
  import opened Snacks
  import opened Advice
  import opened GuideEngine

  /** Every line of `lines` is non-empty and trimmed. */
  predicate AllTrimmed(lines: seq<string>) {
    forall x | x in lines :: x != "" && IsTrimmed(x)
  }

  /** `uniq` keeps exactly the lines of a list of trimmed, non-empty lines, and the first stays first. */
  lemma UniqKeepsAll(lines: seq<string>)
    requires AllTrimmed(lines)
    ensures forall x :: x in Uniq(lines) <==> x in lines
    ensures |lines| > 0 ==> |Uniq(lines)| > 0 && Uniq(lines)[0] == lines[0]
  {
    forall x
      ensures x in Uniq(lines) <==> x in lines
    {
      if x in lines {
        TrimmedIsFixpoint(x);
      }
      if x in Uniq(lines) {
        var i :| 0 <= i < |lines| && Trim(lines[i]) == x;
        assert lines[i] in lines;
        TrimmedIsFixpoint(lines[i]);
      }
    }
    if |lines| > 0 {
      assert lines[0] in lines;
      TrimmedIsFixpoint(lines[0]);
      UniqFirst(lines);
    }
  }

  // ---------------------------------------------------------------------------------------
  // The lists line by line.

  lemma PlayLinesChar(base: string, t: ChildTraits)
    ensures forall x :: x in PlayLines(base, t) <==>
      || x == base
      || (x == PlaySunlight && t.sleepIssue == HardToSleep)
      || ((x == PlayGrossShortAndOften || x == PlayGrossEasierSteps) && t.grossMotorConcern)
      || (x == PlayFineFourKinds && t.fineMotorConcern)
    ensures PlayLines(base, t)[0] == base
  {
  }

  lemma EducationLinesChar(base: string, m: nat, t: ChildTraits)
    ensures forall x :: x in EducationLines(base, m, t) <==>
      || x == base
      || (x == EduWindDown && t.sleepIssue == HardToSleep)
      || (x == EduNightWake && t.sleepIssue == FrequentWake)
      || ((x == EduTalkAndWait || x == EduWhereQuestions) && t.languageConcern)
      || (x == EduLanguageScreening && t.languageConcern && m >= 12)
      || (x == EduFreeDrawing && t.fineMotorConcern)
    ensures EducationLines(base, m, t)[0] == base
  {
  }

  lemma NutritionTraitLinesChar(base: string, m: nat, t: ChildTraits)
    ensures forall x :: x in NutritionTraitLines(base, m, t) <==>
      || x == base
      || (x == NutLateSugar && t.sleepIssue == FrequentWake)
      || ((x == NutOneBiteTwoChoices || x == NutReexposure) && t.pickyEating == PickySome)
      || ((x == NutSafeFoodFirst || x == NutSimpleMealRules) && t.pickyEating == PickySevere)
      || (x == NutPediatricConsult && t.pickyEating == PickySevere && m >= 18)
      || ((x == NutFixedSnackTime || x == NutWeeklySnackCap) && t.snackOften)
  {
  }

  /** The seeded list: the trait lines, with the infancy line in front up to 6 months. */
  lemma SeededNutritionChar(base: string, m: nat, t: ChildTraits)
    ensures forall x :: x in SeededNutrition(base, m, t) <==>
      (x == NutInfancy && m <= 6) || x in NutritionTraitLines(base, m, t)
    ensures SeededNutrition(base, m, t)[0] == (if m <= 6 then NutInfancy else base)
  {
  }

  lemma MealAndSnackInsightLines(lines: seq<string>, n: Nutrition)
    ensures forall x :: x in AddMealAndSnackInsights(lines, n) <==>
      || x in lines
      || (x == NutLowIntake && LowAverageRate(n))
      || (x == NutSkippedMeals && SkippedMeal(n))
      || (x == NutManySnacks && SumCounts(n.snacks) >= 3)
      || (x == NutAfterDinnerSnack && AfterDinnerCount(n.snacks) >= 1)
      || (x == NutSugarySnack && HasSugarySnack(n.snacks))
    ensures |lines| > 0 ==> AddMealAndSnackInsights(lines, n)[0] == lines[0]
  {
  }

  lemma MacroInsightLines(lines: seq<string>, m: nat, split: Option<MacroSplit>)
    ensures forall x :: x in AddMacroInsights(lines, m, split) <==>
      || x in lines
      || (split.Some? && x == MacroSummary(split.value))
      || (x == NutLowProtein && split.Some? && split.value.proteinPct < 12)
      || (x == NutLowFat && split.Some? && split.value.fatPct < 15 && m <= 36)
      || (x == NutHighCarb && split.Some? && split.value.carbPct > 70)
    ensures |lines| > 0 ==> AddMacroInsights(lines, m, split)[0] == lines[0]
  {
  }

  /**
   * The energy-split lines are appended after the lines already there: the summary comes
   * first, and only the three warnings follow it.
   */
  lemma MacroLinesOrder(lines: seq<string>, m: nat, split: Option<MacroSplit>)
    ensures var r := AddMacroInsights(lines, m, split);
      && |lines| <= |r| && r[..|lines|] == lines
      && (split.Some? ==>
            && |r| > |lines| && r[|lines|] == MacroSummary(split.value)
            && forall i | |lines| < i < |r| :: r[i] == NutLowProtein || r[i] == NutLowFat || r[i] == NutHighCarb)
  {
  }

  /** The energy split the record rules see: none without an opt-in and an entry. */
  function RecordSplit(t: ChildTraits, latest: Option<DiaryEntry>): Option<MacroSplit> {
    if InsightsApply(t, latest) then
      var n := latest.value.nutrition;
      CalcMacroPct(n.carbsG, n.proteinG, n.fatG)
    else None
  }

  /** `x` is a line some record rule adds for the latest entry. */
  predicate RecordAdvice(x: string, m: nat, t: ChildTraits, latest: Option<DiaryEntry>) {
    var split := RecordSplit(t, latest);
    || (InsightsApply(t, latest) && (
        || (x == NutLowIntake && LowAverageRate(latest.value.nutrition))
        || (x == NutSkippedMeals && SkippedMeal(latest.value.nutrition))
        || (x == NutManySnacks && SumCounts(latest.value.nutrition.snacks) >= 3)
        || (x == NutAfterDinnerSnack && AfterDinnerCount(latest.value.nutrition.snacks) >= 1)
        || (x == NutSugarySnack && HasSugarySnack(latest.value.nutrition.snacks))))
    || (split.Some? && x == MacroSummary(split.value))
    || (x == NutLowProtein && split.Some? && split.value.proteinPct < 12)
    || (x == NutLowFat && split.Some? && split.value.fatPct < 15 && m <= 36)
    || (x == NutHighCarb && split.Some? && split.value.carbPct > 70)
  }

  /**
   * The whole nutrition list: the seeded lines and the record lines. The record rules only
   * append, so the first line stays first.
   */
  lemma NutritionLinesChar(base: string, m: nat, t: ChildTraits, latest: Option<DiaryEntry>)
    ensures forall x :: x in NutritionLines(base, m, t, latest) <==>
      x in SeededNutrition(base, m, t) || RecordAdvice(x, m, t, latest)
    ensures NutritionLines(base, m, t, latest)[0] == SeededNutrition(base, m, t)[0]
  {
    var seeded := SeededNutrition(base, m, t);
    if InsightsApply(t, latest) {
      var n := latest.value.nutrition;
      MealAndSnackInsightLines(seeded, n);
      MacroInsightLines(AddMealAndSnackInsights(seeded, n), m, RecordSplit(t, latest));
    }
  }

  lemma CountInsightLines(count: nat, behavior: string, situation: string)
    ensures forall x :: x in CountInsights(count, behavior, situation) <==>
      || (x == DisNoScolding && count == 0 && (behavior != "" || situation != ""))
      || ((x == DisShortAndConsistent || x == DisBriefExplanation) && count >= 1)
      || ((x == DisCooldown || x == DisFewerRules) && count >= 3)
    ensures CountInsights(count, behavior, situation) == [] <==> count == 0 && behavior == "" && situation == ""
  {
  }

  lemma KeywordInsightLines(lines: seq<string>, note: string)
    ensures forall x :: x in AddKeywordInsights(lines, note) <==>
      || x in lines
      || (x == DisThrowing && ContainsAny(note, ThrowKeywords))
      || ((x == DisAggressionStop || x == DisAggressionTriggers) && ContainsAny(note, AggressionKeywords))
      || (x == DisTantrum && ContainsAny(note, TantrumKeywords))
      || (x == DisRefusal && ContainsAny(note, RefusalKeywords))
      || (x == DisSafety && ContainsAny(note, DangerKeywords))
    ensures |lines| > 0 ==> |AddKeywordInsights(lines, note)| > 0
  {
  }

  // ---------------------------------------------------------------------------------------
  // Every list holds trimmed, non-empty lines only.

  lemma PlayLinesTrimmed(base: string, t: ChildTraits)
    requires IsBaseText(base)
    ensures AllTrimmed(PlayLines(base, t))
  {
    PlayLinesChar(base, t);
    BaseTextIsTrimmed(base);
    PlayAdviceBullets();
  }

  lemma EducationLinesTrimmed(base: string, m: nat, t: ChildTraits)
    requires IsBaseText(base)
    ensures AllTrimmed(EducationLines(base, m, t))
  {
    EducationLinesChar(base, m, t);
    BaseTextIsTrimmed(base);
    EduAdviceBullets();
  }

  lemma SeededNutritionTrimmed(base: string, m: nat, t: ChildTraits)
    requires IsBaseText(base)
    ensures AllTrimmed(SeededNutrition(base, m, t))
  {
    NutritionTraitLinesChar(base, m, t);
    SeededNutritionChar(base, m, t);
    BaseTextIsTrimmed(base);
    NutTraitAdviceBullets();
    forall x | x in SeededNutrition(base, m, t) ensures x != "" && IsTrimmed(x) {
      assert x == base || IsBullet(x);
    }
  }

  /** The energy-split summary is trimmed, and its fourth character is '/', unlike every advice line. */
  lemma MacroSummaryShape(s: MacroSplit)
    ensures |MacroSummary(s)| > 3 && IsTrimmed(MacroSummary(s))
    ensures MacroSummary(s)[0] == '•' && MacroSummary(s)[3] == '/'
  {
  }

  /** Every line the record rules add is non-empty and trimmed. */
  lemma RecordAdviceTrimmed(x: string, m: nat, t: ChildTraits, latest: Option<DiaryEntry>)
    requires RecordAdvice(x, m, t, latest)
    ensures x != "" && IsTrimmed(x)
  {
    NutRecordAdviceBullets();
    var split := RecordSplit(t, latest);
    if split.Some? && x == MacroSummary(split.value) {
      MacroSummaryShape(split.value);
    }
  }

  lemma NutritionLinesTrimmed(base: string, m: nat, t: ChildTraits, latest: Option<DiaryEntry>)
    requires IsBaseText(base)
    ensures AllTrimmed(NutritionLines(base, m, t, latest))
  {
    SeededNutritionTrimmed(base, m, t);
    NutritionLinesChar(base, m, t, latest);
    forall x | x in NutritionLines(base, m, t, latest) ensures x != "" && IsTrimmed(x) {
      if x !in SeededNutrition(base, m, t) {
        RecordAdviceTrimmed(x, m, t, latest);
      }
    }
  }

  lemma InsightLinesTrimmed(count: nat, behavior: string, situation: string, note: string)
    ensures AllTrimmed(AddKeywordInsights(CountInsights(count, behavior, situation), note))
  {
    CountInsightLines(count, behavior, situation);
    KeywordInsightLines(CountInsights(count, behavior, situation), note);
    DisAdviceBullets();
  }

  lemma DisciplineLinesTrimmed(t: ChildTraits, latest: Option<DiaryEntry>)
    ensures AllTrimmed(DisciplineLines(t, latest))
  {
    if InsightsApply(t, latest) {
      var d := latest.value.discipline;
      InsightLinesTrimmed(d.count, Trim(d.behavior.GetOr("")), Trim(d.situation), DisciplineNote(d));
    }
  }

  // ---------------------------------------------------------------------------------------
  // The guide's sections keep exactly the lines of the lists.

  /**
   * `uniq` drops nothing from the four lists: a line is in a section of the guide exactly when
   * it is in that section's list. Play and education start with the bucket's text, nutrition
   * with the infancy line up to 6 months and with the bucket's text after that.
   */
  lemma PlaySectionKeepsLines(b: Bucket, m: nat, t: ChildTraits, latest: Option<DiaryEntry>)
    requires BaseTexts(b)
    ensures var s := ComposeSections(b, m, t, latest);
      && (forall x :: x in s.play <==> x in PlayLines(b.play, t))
      && |s.play| > 0 && s.play[0] == b.play
  {
    PlayLinesTrimmed(b.play, t);
    PlayLinesChar(b.play, t);
    UniqKeepsAll(PlayLines(b.play, t));
  }

  lemma EducationSectionKeepsLines(b: Bucket, m: nat, t: ChildTraits, latest: Option<DiaryEntry>)
    requires BaseTexts(b)
    ensures var s := ComposeSections(b, m, t, latest);
      && (forall x :: x in s.education <==> x in EducationLines(b.education, m, t))
      && |s.education| > 0 && s.education[0] == b.education
  {
    EducationLinesTrimmed(b.education, m, t);
    EducationLinesChar(b.education, m, t);
    UniqKeepsAll(EducationLines(b.education, m, t));
  }

  lemma NutritionSectionKeepsLines(b: Bucket, m: nat, t: ChildTraits, latest: Option<DiaryEntry>)
    requires BaseTexts(b)
    ensures var s := ComposeSections(b, m, t, latest);
      && (forall x :: x in s.nutrition <==> x in NutritionLines(b.nutrition, m, t, latest))
      && |s.nutrition| > 0 && s.nutrition[0] == (if m <= 6 then NutInfancy else b.nutrition)
  {
    NutritionLinesTrimmed(b.nutrition, m, t, latest);
    InfancyAdvice(b.nutrition, m, t, latest);
    UniqKeepsAll(NutritionLines(b.nutrition, m, t, latest));
  }

  lemma DisciplineSectionKeepsLines(b: Bucket, m: nat, t: ChildTraits, latest: Option<DiaryEntry>)
    ensures forall x :: x in ComposeSections(b, m, t, latest).discipline <==> x in DisciplineLines(t, latest)
  {
    DisciplineLinesTrimmed(t, latest);
    UniqKeepsAll(DisciplineLines(t, latest));
  }

  // ---------------------------------------------------------------------------------------
  // Trait rules: each line present exactly when its trait is ticked, whatever the entry says.

  lemma PlayTraitAdvice(base: string, t: ChildTraits)
    requires IsBaseText(base)
    ensures var lines := PlayLines(base, t);
      && (PlaySunlight in lines <==> t.sleepIssue == HardToSleep)
      && (PlayGrossShortAndOften in lines <==> t.grossMotorConcern)
      && (PlayGrossEasierSteps in lines <==> t.grossMotorConcern)
      && (PlayFineFourKinds in lines <==> t.fineMotorConcern)
  {
    PlayLinesChar(base, t);
    BaseTextIsTrimmed(base);
    PlayAdviceBullets();
    PlayAdviceLengths();
  }

  /** The language lines follow the concern; the screening line also needs 12 months or more. */
  lemma EducationTraitAdvice(base: string, m: nat, t: ChildTraits)
    requires IsBaseText(base)
    ensures var lines := EducationLines(base, m, t);
      && (EduWindDown in lines <==> t.sleepIssue == HardToSleep)
      && (EduNightWake in lines <==> t.sleepIssue == FrequentWake)
      && (EduTalkAndWait in lines <==> t.languageConcern)
      && (EduWhereQuestions in lines <==> t.languageConcern)
      && (EduLanguageScreening in lines <==> t.languageConcern && m >= 12)
      && (EduFreeDrawing in lines <==> t.fineMotorConcern)
  {
    EducationLinesChar(base, m, t);
    BaseTextIsTrimmed(base);
    EduAdviceBullets();
    EduAdviceLengths();
  }

  /** The fourth character of every nutrition trait line (the infancy line included). */
  predicate TraitMark(c: char) {
    c == '은' || c == '식' || c == '사' || c == '중' || c == '자' || c == '아'
  }

  /** The fourth character of every record-derived nutrition line; '/' is the summary's. */
  predicate RecordMark(c: char) {
    c == '근' || c == '니' || c == '저' || c == '류' || c == '백' || c == '방' || c == '수' || c == '/'
  }

  /** A seeded line is the base text, which does not start with a bullet, or carries a trait mark. */
  lemma SeededMark(base: string, m: nat, t: ChildTraits, x: string)
    requires IsBaseText(base) && x in SeededNutrition(base, m, t)
    ensures x != "" && (x[0] != '•' || (|x| > 3 && TraitMark(x[3])))
  {
    SeededNutritionChar(base, m, t);
    NutritionTraitLinesChar(base, m, t);
    BaseTextIsTrimmed(base);
    NutTraitAdviceLengths();
  }

  /** A record line is a bullet with a record mark. */
  lemma RecordAdviceMark(x: string, m: nat, t: ChildTraits, latest: Option<DiaryEntry>)
    requires RecordAdvice(x, m, t, latest)
    ensures |x| > 3 && x[0] == '•' && RecordMark(x[3])
  {
    NutRecordAdviceLengths();
    NutRecordAdviceBullets();
    if RecordSplit(t, latest).Some? {
      MacroSummaryShape(RecordSplit(t, latest).value);
    }
  }

  /** A trait line is in the nutrition list exactly when the trait rules put it there. */
  lemma TraitLineKept(base: string, m: nat, t: ChildTraits, latest: Option<DiaryEntry>, x: string)
    requires |x| > 3 && TraitMark(x[3])
    ensures x in NutritionLines(base, m, t, latest) <==> x in SeededNutrition(base, m, t)
  {
    NutritionLinesChar(base, m, t, latest);
    if RecordAdvice(x, m, t, latest) {
      RecordAdviceMark(x, m, t, latest);
    }
  }

  /** A record line is in the nutrition list exactly when its record rule fires. */
  lemma RecordLineKept(base: string, m: nat, t: ChildTraits, latest: Option<DiaryEntry>, x: string)
    requires IsBaseText(base)
    requires |x| > 3 && x[0] == '•' && RecordMark(x[3])
    ensures x in NutritionLines(base, m, t, latest) <==> RecordAdvice(x, m, t, latest)
  {
    NutritionLinesChar(base, m, t, latest);
    if x in SeededNutrition(base, m, t) {
      SeededMark(base, m, t, x);
    }
  }

  /** Up to 6 months the infancy line is in the nutrition list, and first; after that it is absent. */
  lemma InfancyAdvice(base: string, m: nat, t: ChildTraits, latest: Option<DiaryEntry>)
    requires IsBaseText(base)
    ensures var lines := NutritionLines(base, m, t, latest);
      && (NutInfancy in lines <==> m <= 6)
      && |lines| > 0 && lines[0] == (if m <= 6 then NutInfancy else base)
  {
    NutritionLinesChar(base, m, t, latest);
    SeededNutritionChar(base, m, t);
    NutritionTraitLinesChar(base, m, t);
    BaseTextIsTrimmed(base);
    NutTraitAdviceBullets();
    NutTraitAdviceLengths();
    TraitLineKept(base, m, t, latest, NutInfancy);
  }

  /** The two lines for some picky eating. */
  lemma SomePickyEatingAdvice(base: string, m: nat, t: ChildTraits, latest: Option<DiaryEntry>)
    requires IsBaseText(base)
    ensures var lines := NutritionLines(base, m, t, latest);
      && (NutOneBiteTwoChoices in lines <==> t.pickyEating == PickySome)
      && (NutReexposure in lines <==> t.pickyEating == PickySome)
  {
    SeededNutritionChar(base, m, t);
    NutritionTraitLinesChar(base, m, t);
    BaseTextIsTrimmed(base);
    NutTraitAdviceBullets();
    NutTraitAdviceLengths();
    TraitLineKept(base, m, t, latest, NutOneBiteTwoChoices);
    TraitLineKept(base, m, t, latest, NutReexposure);
  }

  /** The lines for severe picky eating; the paediatric consult line also needs 18 months or more. */
  lemma SeverePickyEatingAdvice(base: string, m: nat, t: ChildTraits, latest: Option<DiaryEntry>)
    requires IsBaseText(base)
    ensures var lines := NutritionLines(base, m, t, latest);
      && (NutSafeFoodFirst in lines <==> t.pickyEating == PickySevere)
      && (NutSimpleMealRules in lines <==> t.pickyEating == PickySevere)
      && (NutPediatricConsult in lines <==> t.pickyEating == PickySevere && m >= 18)
  {
    SeededNutritionChar(base, m, t);
    NutritionTraitLinesChar(base, m, t);
    BaseTextIsTrimmed(base);
    NutTraitAdviceBullets();
    NutTraitAdviceLengths();
    TraitLineKept(base, m, t, latest, NutSafeFoodFirst);
    TraitLineKept(base, m, t, latest, NutSimpleMealRules);
    TraitLineKept(base, m, t, latest, NutPediatricConsult);
  }

  /** The sleep and snack-habit lines of the nutrition list. */
  lemma SleepAndSnackHabitAdvice(base: string, m: nat, t: ChildTraits, latest: Option<DiaryEntry>)
    requires IsBaseText(base)
    ensures var lines := NutritionLines(base, m, t, latest);
      && (NutLateSugar in lines <==> t.sleepIssue == FrequentWake)
      && (NutFixedSnackTime in lines <==> t.snackOften)
      && (NutWeeklySnackCap in lines <==> t.snackOften)
  {
    SeededNutritionChar(base, m, t);
    NutritionTraitLinesChar(base, m, t);
    BaseTextIsTrimmed(base);
    NutTraitAdviceBullets();
    NutTraitAdviceLengths();
    TraitLineKept(base, m, t, latest, NutLateSugar);
    TraitLineKept(base, m, t, latest, NutFixedSnackTime);
    TraitLineKept(base, m, t, latest, NutWeeklySnackCap);
  }

  // ---------------------------------------------------------------------------------------
  // Record rules for nutrition: each line present exactly when the caregiver opted in, an
  // entry exists and the rule fires on that entry.

  /** Low intake when all three rates are numbers averaging below 80; skipped meals when a rate is 0. */
  lemma MealAdvice(base: string, m: nat, t: ChildTraits, latest: Option<DiaryEntry>)
    requires IsBaseText(base)
    ensures var lines := NutritionLines(base, m, t, latest);
      && (NutLowIntake in lines <==> InsightsApply(t, latest) && LowAverageRate(latest.value.nutrition))
      && (NutSkippedMeals in lines <==> InsightsApply(t, latest) && SkippedMeal(latest.value.nutrition))
  {
    NutRecordAdviceBullets();
    NutRecordAdviceLengths();
    if RecordSplit(t, latest).Some? {
      MacroSummaryShape(RecordSplit(t, latest).value);
    }
    RecordLineKept(base, m, t, latest, NutLowIntake);
    RecordLineKept(base, m, t, latest, NutSkippedMeals);
  }

  /** The snack lines: on a total of at least 3, on a snack after dinner and on a sugary snack. */
  lemma SnackAdvice(base: string, m: nat, t: ChildTraits, latest: Option<DiaryEntry>)
    requires IsBaseText(base)
    ensures var lines := NutritionLines(base, m, t, latest);
      && (NutManySnacks in lines <==> InsightsApply(t, latest) && SumCounts(latest.value.nutrition.snacks) >= 3)
      && (NutAfterDinnerSnack in lines <==>
            InsightsApply(t, latest) && AfterDinnerCount(latest.value.nutrition.snacks) >= 1)
      && (NutSugarySnack in lines <==> InsightsApply(t, latest) && HasSugarySnack(latest.value.nutrition.snacks))
  {
    NutRecordAdviceBullets();
    NutRecordAdviceLengths();
    if RecordSplit(t, latest).Some? {
      MacroSummaryShape(RecordSplit(t, latest).value);
    }
    RecordLineKept(base, m, t, latest, NutManySnacks);
    RecordLineKept(base, m, t, latest, NutAfterDinnerSnack);
    RecordLineKept(base, m, t, latest, NutSugarySnack);
  }

  /**
   * The energy-split lines: the summary whenever the entry has a split, and each warning
   * exactly when its threshold is crossed (fat only up to 36 months).
   */
  lemma MacroAdvice(base: string, m: nat, t: ChildTraits, latest: Option<DiaryEntry>)
    requires IsBaseText(base)
    ensures var lines, split := NutritionLines(base, m, t, latest), RecordSplit(t, latest);
      && (split.Some? ==> MacroSummary(split.value) in lines)
      && (NutLowProtein in lines <==> split.Some? && split.value.proteinPct < 12)
      && (NutLowFat in lines <==> split.Some? && split.value.fatPct < 15 && m <= 36)
      && (NutHighCarb in lines <==> split.Some? && split.value.carbPct > 70)
  {
    NutritionLinesChar(base, m, t, latest);
    NutRecordAdviceBullets();
    NutRecordAdviceLengths();
    if RecordSplit(t, latest).Some? {
      MacroSummaryShape(RecordSplit(t, latest).value);
    }
    RecordLineKept(base, m, t, latest, NutLowProtein);
    RecordLineKept(base, m, t, latest, NutLowFat);
    RecordLineKept(base, m, t, latest, NutHighCarb);
  }

  // ---------------------------------------------------------------------------------------
  // Discipline.

  /**
   * The count rules, given the trimmed behaviour and situation: the affirmation line exactly
   * when nothing was scolded but a behaviour or situation was noted, and the two
   * short-and-consistent lines exactly when at least one scolding happened.
   */
  lemma CountAdvice(count: nat, behavior: string, situation: string, note: string)
    ensures var lines := AddKeywordInsights(CountInsights(count, behavior, situation), note);
      && (DisNoScolding in lines <==> count == 0 && (behavior != "" || situation != ""))
      && (DisShortAndConsistent in lines <==> count >= 1)
      && (DisBriefExplanation in lines <==> count >= 1)
  {
    var counted := CountInsights(count, behavior, situation);
    CountInsightLines(count, behavior, situation);
    CountLineKept(counted, note, DisNoScolding);
    CountLineKept(counted, note, DisShortAndConsistent);
    CountLineKept(counted, note, DisBriefExplanation);
    CountLinesDistinct();
  }

  /** The count rules' lines are five different lines. */
  lemma CountLinesDistinct()
    ensures var cs := [DisNoScolding, DisShortAndConsistent, DisBriefExplanation, DisCooldown, DisFewerRules];
      forall i, j | 0 <= i < j < |cs| :: cs[i] != cs[j]
  {
    DisAdviceLengths();
  }

  /** The keyword rules never add a count line: one is in the result exactly when it was before. */
  lemma CountLineKept(lines: seq<string>, note: string, x: string)
    requires x in [DisNoScolding, DisShortAndConsistent, DisBriefExplanation, DisCooldown, DisFewerRules]
    ensures x in AddKeywordInsights(lines, note) <==> x in lines
  {
    DisAdviceLengths();
    assert x == DisNoScolding || x == DisShortAndConsistent || x == DisBriefExplanation
      || x == DisCooldown || x == DisFewerRules;
    assert && x != DisThrowing && x != DisAggressionStop && x != DisAggressionTriggers
           && x != DisTantrum && x != DisRefusal && x != DisSafety;
    KeywordInsightLines(lines, note);
  }

  /** The two cool-down lines exactly when at least three scoldings happened. */
  lemma FrequentScoldingAdvice(count: nat, behavior: string, situation: string, note: string)
    ensures var lines := AddKeywordInsights(CountInsights(count, behavior, situation), note);
      && (DisCooldown in lines <==> count >= 3)
      && (DisFewerRules in lines <==> count >= 3)
  {
    var counted := CountInsights(count, behavior, situation);
    CountInsightLines(count, behavior, situation);
    CountLineKept(counted, note, DisCooldown);
    CountLineKept(counted, note, DisFewerRules);
    DisAdviceLengths();
  }

  /** The count rules never produce a keyword group's line. */
  lemma CountLinesAreNotKeywordLines(count: nat, behavior: string, situation: string)
    ensures var counted := CountInsights(count, behavior, situation);
      && DisThrowing !in counted && DisAggressionStop !in counted && DisAggressionTriggers !in counted
      && DisTantrum !in counted && DisRefusal !in counted && DisSafety !in counted
  {
    CountInsightLines(count, behavior, situation);
    DisAdviceLengths();
  }

  /** The keyword groups' lines are six different lines. */
  lemma KeywordLinesDistinct()
    ensures var ks := [DisThrowing, DisAggressionStop, DisAggressionTriggers, DisTantrum, DisRefusal, DisSafety];
      forall i, j | 0 <= i < j < |ks| :: ks[i] != ks[j]
  {
    DisAdviceLengths();
  }

  /**
   * The keyword rules, each checked on its own: a group's lines are present exactly when one
   * of its words occurs in the note, so several groups can answer the same note.
   */
  lemma ThrowAndAggressionAdvice(count: nat, behavior: string, situation: string, note: string)
    ensures var lines := AddKeywordInsights(CountInsights(count, behavior, situation), note);
      && (DisThrowing in lines <==> ContainsAny(note, ThrowKeywords))
      && (DisAggressionStop in lines <==> ContainsAny(note, AggressionKeywords))
      && (DisAggressionTriggers in lines <==> ContainsAny(note, AggressionKeywords))
  {
    CountLinesAreNotKeywordLines(count, behavior, situation);
    KeywordLinesDistinct();
    KeywordInsightLines(CountInsights(count, behavior, situation), note);
  }

  lemma TantrumRefusalSafetyAdvice(count: nat, behavior: string, situation: string, note: string)
    ensures var lines := AddKeywordInsights(CountInsights(count, behavior, situation), note);
      && (DisTantrum in lines <==> ContainsAny(note, TantrumKeywords))
      && (DisRefusal in lines <==> ContainsAny(note, RefusalKeywords))
      && (DisSafety in lines <==> ContainsAny(note, DangerKeywords))
  {
    CountLinesAreNotKeywordLines(count, behavior, situation);
    KeywordLinesDistinct();
    KeywordInsightLines(CountInsights(count, behavior, situation), note);
  }

  /** With no scolding but a behaviour noted, the count rules give the affirmation line alone. */
  lemma NoScoldingNoted(count: nat, behavior: string, situation: string)
    requires count == 0 && behavior != ""
    ensures CountInsights(count, behavior, situation) == [DisNoScolding]
  {
  }

  /** A blank behaviour and situation give a blank note. */
  lemma BlankNote(behavior: string, situation: string)
    requires behavior == "" && situation == ""
    ensures Trim(behavior + " " + situation) == ""
  {
    assert behavior + " " + situation == " ";
  }

  /** No keyword occurs in a blank note, so no keyword rule fires. */
  lemma KeywordsOfBlankNote(lines: seq<string>)
    ensures AddKeywordInsights(lines, "") == lines
  {
    FirstCharsAbsent("", ThrowKeywords);
    FirstCharsAbsent("", AggressionKeywords);
    FirstCharsAbsent("", TantrumKeywords);
    FirstCharsAbsent("", RefusalKeywords);
    FirstCharsAbsent("", DangerKeywords);
  }

  /**
   * Some discipline rule fires exactly when the record holds a scolding or a non-blank
   * behaviour or situation: with neither, the note is blank and no keyword can match.
   */
  lemma DisciplineInsightsPresent(d: DisciplineRecord)
    ensures |DisciplineInsights(d)| > 0 <==>
      d.count >= 1 || Trim(d.behavior.GetOr("")) != "" || Trim(d.situation) != ""
  {
    var behavior, situation := Trim(d.behavior.GetOr("")), Trim(d.situation);
    var counted := CountInsights(d.count, behavior, situation);
    CountInsightLines(d.count, behavior, situation);
    KeywordInsightLines(counted, DisciplineNote(d));
    if counted == [] {
      BlankNote(behavior, situation);
      KeywordsOfBlankNote(counted);
    }
  }

  /**
   * The guide has a discipline section exactly when the caregiver opted in, an entry exists and
   * it records a scolding or a non-blank behaviour or situation; the section is then non-empty.
   */
  lemma DisciplinePresence(b: Bucket, m: nat, t: ChildTraits, latest: Option<DiaryEntry>)
    ensures var g := GuideFor(b, m, t, latest);
      && (g.discipline.Some? <==>
            InsightsApply(t, latest)
            && (|| latest.value.discipline.count >= 1
                || Trim(latest.value.discipline.behavior.GetOr("")) != ""
                || Trim(latest.value.discipline.situation) != ""))
      && (g.discipline.Some? ==> g.discipline.value != "")
  {
    var lines := DisciplineLines(t, latest);
    if InsightsApply(t, latest) {
      DisciplineInsightsPresent(latest.value.discipline);
    }
    if |lines| > 0 {
      DisciplineLinesTrimmed(t, latest);
      UniqKeepsAll(lines);
      assert lines[0] in lines;
      JoinedNonEmpty(Uniq(lines));
    }
  }

  /**
   * Without an opt-in or without an entry the latest entry is not used at all: the guide is
   * the one for no entry, and it has no discipline section.
   */
  lemma OptOutIgnoresEntry(b: Bucket, m: nat, t: ChildTraits, latest: Option<DiaryEntry>)
    ensures !InsightsApply(t, latest) ==>
      && GuideFor(b, m, t, latest) == GuideFor(b, m, t, None)
      && GuideFor(b, m, t, latest).discipline.None?
  {
  }

  /** The play, education and nutrition texts of the guide are never empty. */
  lemma GuideTextsNonEmpty(b: Bucket, m: nat, t: ChildTraits, latest: Option<DiaryEntry>)
    requires BaseTexts(b)
    ensures var g := GuideFor(b, m, t, latest);
      g.play != "" && g.education != "" && g.nutrition != ""
  {
    var s := ComposeSections(b, m, t, latest);
    PlaySectionKeepsLines(b, m, t, latest);
    EducationSectionKeepsLines(b, m, t, latest);
    NutritionSectionKeepsLines(b, m, t, latest);
    NutTraitAdviceBullets();
    JoinedNonEmpty(s.play);
    JoinedNonEmpty(s.education);
    JoinedNonEmpty(s.nutrition);
  }

  lemma JoinedNonEmpty(lines: seq<string>)
    requires |lines| > 0 && lines[0] != ""
    ensures JoinLines(lines) != ""
  {
  }

  /**
   * A note "던지기" about "때리기" with no scolding gives, in this order, the affirmation line,
   * the throwing line and both aggression lines.
   */
  lemma ThrowAndHitExample()
    ensures DisciplineInsights(DisciplineRecord(0, "때리기", Some("던지기")))
         == [DisNoScolding, DisThrowing, DisAggressionStop, DisAggressionTriggers]
  {
    ThrowAndHitRecord(DisciplineRecord(0, "때리기", Some("던지기")));
  }

  lemma ThrowAndHitRecord(d: DisciplineRecord)
    requires d == DisciplineRecord(0, "때리기", Some("던지기"))
    ensures DisciplineInsights(d) == [DisNoScolding, DisThrowing, DisAggressionStop, DisAggressionTriggers]
  {
    var note := DisciplineNote(d);
    ThrowAndHitNote(d);
    NoScoldingNoted(d.count, Trim(d.behavior.GetOr("")), Trim(d.situation));
    ThrowAndHitKeywords(note);
    KeywordsOfThrowAndHit(note);
  }

  lemma KeywordsOfThrowAndHit(note: string)
    requires ContainsAny(note, ThrowKeywords) && ContainsAny(note, AggressionKeywords)
    requires !ContainsAny(note, TantrumKeywords) && !ContainsAny(note, RefusalKeywords)
    requires !ContainsAny(note, DangerKeywords)
    ensures AddKeywordInsights([DisNoScolding], note)
         == [DisNoScolding, DisThrowing, DisAggressionStop, DisAggressionTriggers]
  {
  }

  /** Of a non-empty trimmed behaviour and situation, the note is the two joined by one space. */
  lemma NoteOfTrimmed(d: DisciplineRecord)
    requires d.behavior.Some? && d.behavior.value != "" && IsTrimmed(d.behavior.value)
    requires d.situation != "" && IsTrimmed(d.situation)
    ensures DisciplineNote(d) == d.behavior.value + " " + d.situation
  {
    var b, s := d.behavior.value, d.situation;
    TrimmedIsFixpoint(b);
    TrimmedIsFixpoint(s);
    var joined := b + " " + s;
    assert joined[0] == b[0] && joined[|joined| - 1] == s[|s| - 1];
    TrimmedIsFixpoint(joined);
  }

  /** The record's note is "던지기 때리기", and its trimmed behaviour and situation are the words themselves. */
  lemma ThrowAndHitNote(d: DisciplineRecord)
    requires d == DisciplineRecord(0, "때리기", Some("던지기"))
    ensures DisciplineNote(d) == "던지기 때리기"
    ensures Trim(d.behavior.GetOr("")) == "던지기" && Trim(d.situation) == "때리기"
  {
    assert IsTrimmed("던지기") && IsTrimmed("때리기");
    TrimmedIsFixpoint("던지기");
    TrimmedIsFixpoint("때리기");
    NoteOfTrimmed(d);
    ThrowAndHitWords();
  }

  lemma ThrowAndHitWords()
    ensures "던지기" + " " + "때리기" == "던지기 때리기"
  {
  }

  /** "던" and "때리" occur in the note; no tantrum, refusal or danger word does. */
  lemma ThrowAndHitKeywords(note: string)
    requires note == "던지기 때리기"
    ensures && ContainsAny(note, ThrowKeywords) && ContainsAny(note, AggressionKeywords)
      && !ContainsAny(note, TantrumKeywords) && !ContainsAny(note, RefusalKeywords)
      && !ContainsAny(note, DangerKeywords)
  {
    assert OccursAt(note, ThrowKeywords[0], 0);
    assert OccursAt(note, AggressionKeywords[0], 4);
    FirstCharsAbsent(note, TantrumKeywords);
    FirstCharsAbsent(note, RefusalKeywords);
    FirstCharsAbsent(note, DangerKeywords);
  }
}
