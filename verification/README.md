# Zaram diary: a Dafny model of the offline development guide

The application is a parenting diary. The caregiver enters the child's age in months, the
gender and a checklist of traits (picky eating, sleep issues, language and motor concerns,
frequent snacks). Each day they record meals, snacks, play, a milestone and scoldings.

From the age bucket, the checklist and the newest diary entry, a rule-based engine composes a
guide with four sections:

- play
- education
- nutrition
- discipline, present only when some discipline rule fired

The engine runs offline. Every line of advice is a fixed Korean sentence, selected by
if-rules. Each list is de-duplicated after trimming and joined with line feeds. The guide card
splits each section back into lines and strips the leading bullets.

This project models the engine (`services/geminiService.ts`), the application state and the
auto-trait derivation (`App.tsx`), the snack and scolding logic of the diary form
(`components/DiaryForm.tsx`), and the rendering of the guide card
(`components/MonthlyGuideSection.tsx`). The modules are:

| module | file | contents |
|---|---|---|
| `Wrappers` | `wrappers.dfy` | `Option` |
| `Types` | `types.dfy` | the records of `types.ts` |
| `Text` | `text.dfy` | JavaScript `trim`, `includes`, `split('\n')`/`join('\n')` and decimal formatting of whole numbers |
| `Dedup` | `dedup.dfy` | the `Set` insertion order and `uniq` |
| `AgeBuckets` | `age_buckets.dfy` | `clampMonths` and the three age tables with `getBaseBucket`/`getStaticGuide` |
| `Macros` | `macros.dfy` | `calcMacroPct` |
| `Snacks` | `snacks.dfy` | snack tallies |
| `Advice` | `advice.dfy` | the advice sentences |
| `GuideEngine` | `guide_engine.dfy` | the engine |
| `GuideProperties` | `guide_properties.dfy` | what each rule adds to the guide |
| `AutoInsights` | `auto_insights.dfy` | `buildAutoInsights` and `effectiveTraits` |
| `App` | `app_state.dfy` | the application state |
| `Form` | `diary_form.dfy` | the diary form |
| `GuideView` | `guide_view.dfy` | the guide card |

The engine works in two layers:

1. `GuideEngine.RuleBasedDevelopmentGuide` is a method that builds the lists step by step, as
   the source does.
2. It is proved equal to the function `GuideEngine.ComposeGuide`. The lemmas in
   `GuideProperties` state, for every advice line, exactly when it appears in the guide.

The application state (`App.DiaryApp`) and the form (`Form.DiaryForm`) are classes whose methods
update their fields. Each method states the whole new state. Each class keeps an invariant
(`Valid`):

- `App.DiaryApp`: entry ids are distinct.
- `Form.DiaryForm`: the pickers hold valid choices, and snacks have chip timings, distinct ids
  and positive counts.

## Model

| member | source | states |
|---|---|---|
| `Text.TrimStart` | services/geminiService.ts:95 | the result is no longer than the input and does not start with white space |
| `Text.TrimStartSuffix` | services/geminiService.ts:95 | what is left after the leading white space is a suffix of the input, and every dropped character is white space |
| `Text.TrimEnd` | services/geminiService.ts:95 | the result is no longer than the input and does not end with white space |
| `Text.TrimEndPrefix` | services/geminiService.ts:95 | what is left before the trailing white space is a prefix of the input, and every dropped character is white space |
| `Text.Trim` | services/geminiService.ts:95 | neither end of `trim()`'s result is white space |
| `Text.TrimSlice` | services/geminiService.ts:95 | `trim()` gives a slice of the input with only white space on either side |
| `Text.TrimmedIsFixpoint` | services/geminiService.ts:95 | a text whose ends are not white space is its own trim |
| `Text.TrimIdempotent` | services/geminiService.ts:233-235 | trimming twice gives what trimming once gives |
| `Text.FirstCharsAbsent` | services/geminiService.ts:250-267 | no keyword occurs in a text that lacks each keyword's first character |
| `Text.SplitLines` | components/MonthlyGuideSection.tsx:31-32 | `split('\n')` gives at least one piece, and no piece holds a line feed |
| `Text.SplitJoin` | components/MonthlyGuideSection.tsx:31-32 | splitting the line-feed join of lines that hold no line feed gives back exactly those lines |
| `Text.JoinSplit` | services/geminiService.ts:273-276 | joining the pieces of a split with line feeds gives back the text |
| `Text.NatToString` | services/geminiService.ts:219 | the decimal form of a whole number is non-empty, all digits, and without a leading zero unless it is 0 |
| `Text.NatToStringRoundTrip` | services/geminiService.ts:219 | the decimal form read back as digits gives the number |
| `Dedup.Dedup` | services/geminiService.ts:95 | `Array.from(new Set(...))` has no duplicates and exactly the input's elements |
| `Dedup.DedupPrefix` | services/geminiService.ts:95 | a `Set` keeps first occurrences, so de-duplicating a longer list extends the shorter list's result |
| `Dedup.DedupOfNoDup` | services/geminiService.ts:95 | a list without duplicates passes unchanged |
| `Dedup.NonBlank` | services/geminiService.ts:95 | `filter(Boolean)` keeps exactly the non-empty elements |
| `Dedup.NonBlankAppend` | services/geminiService.ts:95 | filtering distributes over concatenation |
| `Dedup.NonBlankOfNonEmpty` | services/geminiService.ts:95 | a list of non-empty texts passes the filter unchanged |
| `Dedup.Uniq` | services/geminiService.ts:95 | `uniq` gives distinct, trimmed, non-empty texts, no more of them than input lines |
| `Dedup.UniqMembers` | services/geminiService.ts:95 | a text is kept by `uniq` exactly when it is non-empty and some input line trims to it |
| `Dedup.TrimAllAppend` | services/geminiService.ts:95 | trimming every line of two lists one after the other is trimming each list in turn |
| `Dedup.UniqPrefix` | services/geminiService.ts:95 | pushing more lines never reorders or removes what `uniq` already kept |
| `Dedup.UniqOfClean` | services/geminiService.ts:95 | distinct, trimmed, non-empty lines pass `uniq` unchanged |
| `Dedup.UniqIdempotent` | services/geminiService.ts:95 | `uniq` of `uniq` is `uniq` |
| `Dedup.UniqFirst` | services/geminiService.ts:95 | the first line, when its trim is non-empty, stays first |
| `Dedup.UniqMember` | services/geminiService.ts:95 | for trimmed lines, a trimmed non-empty text is kept iff it is in the input |
| `AgeBuckets.ClampMonths` | services/geminiService.ts:11-14 | `NaN` and negatives give 0, 84 and above give 84, and in between the result is the floor |
| `AgeBuckets.TilesOrdered` | services/geminiService.ts:64 | in a table of consecutive ranges, a later range starts after an earlier one ends, and all lie within the table's span |
| `AgeBuckets.TilesBounds` | services/geminiService.ts:64 | every range of such a table lies within the table's span |
| `AgeBuckets.TilesPartition` | services/geminiService.ts:64 | a month lies in some range of the table iff it is within the span, and then in only one |
| `AgeBuckets.TileIndex` | services/geminiService.ts:64 | every month within the span has a range that holds it |
| `AgeBuckets.FindBucket` | services/geminiService.ts:64 | `find` returns a range of the table that holds the month, and nothing only when no range holds it |
| `AgeBuckets.ByMonthTiles` | services/geminiService.ts:35-49 | months 0 to 12 have one bucket each, at their own index |
| `AgeBuckets.Buckets3mTile` | services/geminiService.ts:54-63 | months 13 to 36 are covered by consecutive 3-month ranges |
| `AgeBuckets.Buckets6mTile` | services/geminiService.ts:68-77 | months 37 to 84 are covered by consecutive 6-month ranges |
| `AgeBuckets.TablesTile` | services/geminiService.ts:30-79 | each of the three tables covers its span with consecutive ranges |
| `AgeBuckets.AllBucketsTile` | services/geminiService.ts:30-79 | the three tables together cover 0 to 84 with consecutive ranges |
| `AgeBuckets.BaseTextIsTrimmed` | services/geminiService.ts:36-76 | a bucket text is trimmed and does not start with a bullet |
| `AgeBuckets.ByMonthTexts` | services/geminiService.ts:36-48 | every monthly bucket has three non-empty, trimmed, unbulleted texts |
| `AgeBuckets.Buckets3mTexts` | services/geminiService.ts:55-62 | every 3-month bucket has three non-empty, trimmed, unbulleted texts |
| `AgeBuckets.Buckets6mTexts` | services/geminiService.ts:69-76 | every 6-month bucket has three non-empty, trimmed, unbulleted texts |
| `AgeBuckets.BucketTexts` | services/geminiService.ts:35-77 | every bucket of any table has such texts |
| `AgeBuckets.BaseBucket` | services/geminiService.ts:30-79 | `getBaseBucket` returns a bucket of the tables whose range holds the clamped age |
| `AgeBuckets.BaseBucketUnique` | services/geminiService.ts:30-79 | that bucket is the only one whose range holds the clamped age |
| `AgeBuckets.StaticGuide` | services/geminiService.ts:81-84 | `getStaticGuide` gives the texts of the bucket for the clamped age and no discipline section |
| `AgeBuckets.ClampedAgesShareBuckets` | services/geminiService.ts:30-31 | an age and its clamped value select the same bucket, so negative ages give the newborn bucket and ages of 84 or more give the last bucket |
| `Macros.RoundPct` | services/geminiService.ts:110-112 | `Math.round(part / total * 100)` taken on the exact ratio: the nearest whole percentage, with halves rounded up, and at most 100 for a part of the total |
| `Macros.RoundPctFacts` | services/geminiService.ts:110-112 | the whole-number formula is that rounded share |
| `Macros.SharesSumNear100` | services/geminiService.ts:110-112 | three rounded shares of one total add up to 99, 100 or 101 |
| `Macros.CalcMacroPct` | services/geminiService.ts:97-115 | no split without amounts or with zero energy; otherwise the energy is 4/4/9 kcal per gram, each share is its exactly rounded percentage of it, and the shares lie in 0..100 with a sum of 99 to 101 |
| `Macros.CarbsOnlyExample` | services/geminiService.ts:97-115 | 100 g of carbohydrate alone splits as 100/0/0 of 400 kcal |
| `Macros.MixedExample` | services/geminiService.ts:97-115 | 50/20/10 g split as 54/22/24 percent of 370 kcal |
| `Macros.NoSplitExamples` | services/geminiService.ts:101-107 | no grams, or all-zero grams, give no split |
| `Snacks.SumCountsAppend` | services/geminiService.ts:198 | the snack total of a concatenation is the sum of the totals |
| `Snacks.SumCountsAtLeastLength` | components/DiaryForm.tsx:87-89 | with every count positive, the total is at least the number of snack rows |
| `Snacks.AfterDinnerSnacks` | services/geminiService.ts:199-200 | the filter keeps exactly the snacks whose timing contains "저녁 후" |
| `Snacks.AfterDinnerCount` | services/geminiService.ts:199-201 | the after-dinner tally is at most the total, and equal to it iff every counted snack is after dinner |
| `Snacks.AfterDinnerCountIsFilteredSum` | services/geminiService.ts:199-201 | the tally is the total of the filtered snacks |
| `Snacks.SnackTallyExample` | services/geminiService.ts:198-204 | two after-dinner bananas and a yoghurt total 3, with 2 after dinner and none sugary |
| `Snacks.SugaryExample` | services/geminiService.ts:203-204 | a snack named "초코" is sugary |
| `Advice.PlayAdviceBullets` | services/geminiService.ts:139-161 | every play advice line is a trimmed bullet line |
| `Advice.EduAdviceBullets` | services/geminiService.ts:139-161 | every education advice line is a trimmed bullet line |
| `Advice.NutTraitAdviceBullets` | services/geminiService.ts:143-181 | every trait-driven nutrition line is a trimmed bullet line |
| `Advice.NutRecordAdviceBullets` | services/geminiService.ts:186-229 | every record-driven nutrition line is a trimmed bullet line |
| `Advice.DisAdviceBullets` | services/geminiService.ts:231-269 | every discipline line is a trimmed bullet line |
| `GuideEngine.ApplyTraitRules` | services/geminiService.ts:139-181 | the checklist phase produces exactly the play, education and nutrition lists that `PlayLines`, `EducationLines` and `SeededNutrition` specify |
| `GuideEngine.ApplyDevelopmentTraitRules` | services/geminiService.ts:139-161 | the sleep, language and motor rules push their lines in source order |
| `GuideEngine.ApplyEatingTraitRules` | services/geminiService.ts:163-181 | the picky-eating and snack rules push, and up to 6 months the infancy line is put in front |
| `GuideEngine.TallySnacks` | services/geminiService.ts:198-201 | the two `reduce` loops give the snack total and the after-dinner tally |
| `GuideEngine.ApplyMealAndSnackRules` | services/geminiService.ts:186-214 | the meal and snack rules append exactly the lines `AddMealAndSnackInsights` specifies |
| `GuideEngine.ApplyMacroRules` | services/geminiService.ts:217-229 | the energy rules append the summary and the protein, fat and carbohydrate warnings |
| `GuideEngine.ApplyCountRules` | services/geminiService.ts:232-247 | the scolding-count rules produce exactly the lines `CountInsights` specifies |
| `GuideEngine.ApplyKeywordRules` | services/geminiService.ts:250-269 | the keyword rules append, group by group, the lines `AddKeywordInsights` specifies |
| `GuideEngine.RuleBasedDevelopmentGuide` | services/geminiService.ts:121-278 | the engine's result is the guide `ComposeGuide` specifies for the same age, traits and entry |
| `GuideProperties.UniqKeepsAll` | services/geminiService.ts:273-276 | for trimmed non-empty lines, `uniq` keeps every line and the first stays first |
| `GuideProperties.PlayLinesChar` | services/geminiService.ts:129-159 | a line is in the play list iff it is the base text or its rule's trait is set |
| `GuideProperties.EducationLinesChar` | services/geminiService.ts:130-161 | a line is in the education list iff it is the base text or its rule fires, the screening line needing 12 months or more |
| `GuideProperties.NutritionTraitLinesChar` | services/geminiService.ts:143-176 | a line is in the nutrition trait list iff it is the base text or its rule fires, the consultation line needing 18 months or more |
| `GuideProperties.SeededNutritionChar` | services/geminiService.ts:178-181 | the infancy line is added iff the age is at most 6, and it then comes first |
| `GuideProperties.MealAndSnackInsightLines` | services/geminiService.ts:187-214 | the record rules add each meal or snack line exactly when its condition holds |
| `GuideProperties.MacroInsightLines` | services/geminiService.ts:217-229 | the energy rules add the summary exactly when there is a split, and each warning exactly when its threshold is crossed |
| `GuideProperties.MacroLinesOrder` | services/geminiService.ts:217-229 | the energy lines are appended after the lines already there; with a split the summary comes first, and only the three warnings follow it |
| `GuideProperties.NutritionLinesChar` | services/geminiService.ts:131-229 | the nutrition list is the seeded lines plus exactly the record lines whose condition holds for an opted-in entry |
| `GuideProperties.CountInsightLines` | services/geminiService.ts:237-247 | the count lines are added exactly at count 0 with a note, at 1 or more, and at 3 or more; none iff count 0 and both texts blank |
| `GuideProperties.KeywordInsightLines` | services/geminiService.ts:250-269 | each keyword group adds its lines exactly when one of its keywords occurs in the note |
| `GuideProperties.PlayLinesTrimmed` | services/geminiService.ts:129-159 | every play line is trimmed and non-empty |
| `GuideProperties.EducationLinesTrimmed` | services/geminiService.ts:130-161 | every education line is trimmed and non-empty |
| `GuideProperties.SeededNutritionTrimmed` | services/geminiService.ts:131-181 | every seeded nutrition line is trimmed and non-empty |
| `GuideProperties.MacroSummaryShape` | services/geminiService.ts:219 | the energy summary is a trimmed bullet line |
| `GuideProperties.RecordAdviceTrimmed` | services/geminiService.ts:186-229 | every line the record rules add (meal, snack and energy-split lines) is trimmed and non-empty |
| `GuideProperties.NutritionLinesTrimmed` | services/geminiService.ts:131-229 | every nutrition line is trimmed and non-empty |
| `GuideProperties.InsightLinesTrimmed` | services/geminiService.ts:232-269 | every discipline line is trimmed and non-empty |
| `GuideProperties.DisciplineLinesTrimmed` | services/geminiService.ts:186-269 | so is every line of the discipline list |
| `GuideProperties.PlaySectionKeepsLines` | services/geminiService.ts:273 | the play section holds exactly the pushed play lines, and the bucket text first |
| `GuideProperties.EducationSectionKeepsLines` | services/geminiService.ts:274 | the education section holds exactly the pushed lines, and the bucket text first |
| `GuideProperties.NutritionSectionKeepsLines` | services/geminiService.ts:275 | the nutrition section holds exactly the pushed lines; the first is the infancy line up to 6 months, otherwise the bucket text |
| `GuideProperties.DisciplineSectionKeepsLines` | services/geminiService.ts:276 | the discipline section holds exactly the pushed discipline lines |
| `GuideProperties.PlayTraitAdvice` | services/geminiService.ts:139-161 | each play advice line is present iff its trait is set |
| `GuideProperties.EducationTraitAdvice` | services/geminiService.ts:139-161 | each education advice line is present iff its trait is set, the screening line needing 12 months or more |
| `GuideProperties.SeededMark` | services/geminiService.ts:131-181 | a seeded nutrition line is the bucket text or carries a trait mark as its fourth character |
| `GuideProperties.RecordAdviceMark` | services/geminiService.ts:186-229 | a record-driven nutrition line carries a record mark as its fourth character |
| `GuideProperties.TraitLineKept` | services/geminiService.ts:163-181 | a trait line is in the nutrition list iff the trait rules put it there, whatever the record adds |
| `GuideProperties.RecordLineKept` | services/geminiService.ts:186-229 | a record line is in the nutrition list iff its record rule fires |
| `GuideProperties.InfancyAdvice` | services/geminiService.ts:178-181 | the infancy line is present iff the age is at most 6 months, and it then leads the list |
| `GuideProperties.SomePickyEatingAdvice` | services/geminiService.ts:163-166 | the two mild picky-eating lines are present iff the level is 'some' |
| `GuideProperties.SeverePickyEatingAdvice` | services/geminiService.ts:167-171 | the severe lines are present iff the level is 'severe', the consultation line needing 18 months or more |
| `GuideProperties.SleepAndSnackHabitAdvice` | services/geminiService.ts:143-176 | the late-sugar line is present iff the child wakes often at night, and the two snack-habit lines iff snacking is ticked |
| `GuideProperties.MealAdvice` | services/geminiService.ts:186-195 | the low-intake line is present iff the three rates are numbers with a mean below 80, and the skipped-meal line iff a rate is 0, both only for an opted-in entry |
| `GuideProperties.SnackAdvice` | services/geminiService.ts:197-214 | the many-snacks, after-dinner and sugary lines are present iff their tallies say so, for an opted-in entry |
| `GuideProperties.MacroAdvice` | services/geminiService.ts:216-229 | the summary is present with a split, and each warning iff its threshold is crossed, fat only up to 36 months |
| `GuideProperties.CountAdvice` | services/geminiService.ts:237-243 | the no-scolding line is present iff there were no scoldings but a note, and the two short-and-consistent lines iff there was at least one |
| `GuideProperties.CountLinesAreNotKeywordLines` | services/geminiService.ts:237-269 | the count rules never produce a line of a keyword group |
| `GuideProperties.CountLineKept` | services/geminiService.ts:237-269 | the keyword rules never add a count line |
| `GuideProperties.FrequentScoldingAdvice` | services/geminiService.ts:244-247 | the cool-down lines are present iff there were 3 or more scoldings |
| `GuideProperties.ThrowAndAggressionAdvice` | services/geminiService.ts:250-257 | the throwing line is present iff a throwing keyword occurs, and the aggression lines iff an aggression keyword occurs |
| `GuideProperties.TantrumRefusalSafetyAdvice` | services/geminiService.ts:258-269 | the tantrum, refusal and safety lines are present iff one of their keywords occurs |
| `GuideProperties.NoScoldingNoted` | services/geminiService.ts:237-239 | with no scoldings and a behaviour noted, the count rules give only the no-scolding line |
| `GuideProperties.BlankNote` | services/geminiService.ts:235 | two blank texts make a blank note |
| `GuideProperties.KeywordsOfBlankNote` | services/geminiService.ts:250-269 | a blank note adds no keyword line |
| `GuideProperties.DisciplineInsightsPresent` | services/geminiService.ts:232-269 | some discipline line is produced iff there was a scolding or a non-blank behaviour or situation |
| `GuideProperties.DisciplinePresence` | services/geminiService.ts:276 | the guide has a discipline section iff the caregiver opted in, an entry exists and it records a scolding, a behaviour or a situation; the section is then not empty |
| `GuideProperties.OptOutIgnoresEntry` | services/geminiService.ts:186 | without opt-in or without an entry the guide is the one built without an entry, with no discipline section |
| `GuideProperties.GuideTextsNonEmpty` | services/geminiService.ts:272-275 | the play, education and nutrition texts are never empty |
| `GuideProperties.JoinedNonEmpty` | services/geminiService.ts:273-276 | a join whose first line is non-empty is non-empty |
| `GuideProperties.ThrowAndHitExample` | services/geminiService.ts:237-257 | behaviour "던지기" and situation "때리기" with no scolding give the no-scolding, throwing and two aggression lines, in that order |
| `GuideProperties.ThrowAndHitRecord` | services/geminiService.ts:232-257 | the same for that record as a value |
| `GuideProperties.KeywordsOfThrowAndHit` | services/geminiService.ts:250-269 | a note with throwing and aggression keywords only adds exactly those three lines |
| `GuideProperties.NoteOfTrimmed` | services/geminiService.ts:233-235 | a trimmed, non-empty behaviour and situation make the note the two joined by one space |
| `GuideProperties.ThrowAndHitNote` | services/geminiService.ts:233-235 | the record's note is "던지기 때리기" |
| `GuideProperties.ThrowAndHitKeywords` | services/geminiService.ts:250-269 | that note matches the throwing and aggression groups and no other |
| `AutoInsights.NumericRates` | App.tsx:72-74 | the numeric rates are at most three, and exactly the recorded ones |
| `AutoInsights.AverageRate` | App.tsx:75 | the mean times the number of rates is their sum; with no rates it is 100 |
| `AutoInsights.BuildAutoInsights` | App.tsx:69-96 | nothing without an entry; otherwise the picky level is `PickyAuto` of the entry's meals (characterised by `AutoInsights.PickyAutoBySums`), the average is the mean of the numeric rates (100 with none), the snack flag is set iff the snack total is 3 or more, and the totals and discipline fields are copied from the entry |
| `AutoInsights.MeanBelow` | App.tsx:79-80 | a mean of k values is below c iff their sum is below c times k |
| `AutoInsights.PickyAutoBySums` | App.tsx:79-80 | the auto level is 'severe' iff a rate is 0 or the mean is below 50, 'some' iff neither holds and the mean is below 80, and 'none' otherwise, including when no rate is recorded |
| `AutoInsights.SkippedMealIsZeroRate` | App.tsx:79-80 | a zero rate makes the auto level 'severe', the same test as the engine's skipped-meal rule |
| `AutoInsights.AgreesWithEngineWhenAllRated` | App.tsx:72-80 | with all three rates recorded, the auto level is not 'none' iff the engine's low-intake or skipped-meal rule fires |
| `AutoInsights.DivergesOnMissingRate` | App.tsx:72-75 | with a rate missing the two disagree: the auto level is 'some' while the engine's mean-of-three rule stays silent |
| `AutoInsights.EffectiveTraits` | App.tsx:100-109 | without opt-in or insights the traits are unchanged; otherwise the picky level is replaced, the snack flag can only be switched on, and every other trait is kept |
| `AutoInsights.RecordDrivesTraitAdvice` | App.tsx:104-108 | with opt-in, the severe picky-eating line appears iff the entry's level is 'severe', and 3 or more snacks bring the snack-habit and many-snacks lines |
| `App.NewestEntryDecides` | App.tsx:98-109 | only the first entry reaches the guide: older entries do not change the latest entry or the effective traits |
| `App.FetchGuide` | App.tsx:112-121 | the guide is requested for the current age, the checklist merged with the newest entry, and that entry |
| `App.GuideOfSections` | App.tsx:112-121 | that guide always has play, education and nutrition text, and a discipline section iff the caregiver opted in, the diary is not empty and the newest entry records a scolding, a behaviour or a situation |
| `App.DiaryApp.constructor` | App.tsx:10-65 | the application starts at 12 months, as a girl, with the default checklist (opted in), no entries and no guide, not loading |
| `App.DiaryApp.SaveEntry` | App.tsx:147-158 | the stamped entry goes in front and becomes the latest, the older entries follow unchanged, its id is new, and nothing else changes |
| `App.DiaryApp.SetMonths` | App.tsx:167 | only the age changes |
| `App.DiaryApp.SetGender` | App.tsx:169 | only the gender changes |
| `App.DiaryApp.SetTraits` | App.tsx:180 | only the checklist changes |
| `App.DiaryApp.BeginFetch` | App.tsx:113 | loading starts, and nothing else changes |
| `App.DiaryApp.ShowGuide` | App.tsx:115-116 | the fetched guide is shown and loading ends |
| `Form.TimingIsChip` | components/DiaryForm.tsx:80-82 | every meal and before/after choice gives one of the six timing chips |
| `Form.ChipIsTiming` | components/DiaryForm.tsx:80-82 | every timing chip comes from some meal and before/after choice |
| `Form.AfterDinnerChip` | components/DiaryForm.tsx:102 | a snack timing contains "저녁 후" iff the picks were dinner and after |
| `Form.Positive` | components/DiaryForm.tsx:116 | the filter keeps exactly the snacks with a positive count |
| `Form.OtherIds` | components/DiaryForm.tsx:116 | exactly the snacks with another id (their order is stated by `Form.UpdateKeepsOthers`) |
| `Form.UpdateKeepsOthers` | components/DiaryForm.tsx:113-118 | an update touches only the snack with the given id: every other snack stays, in its order |
| `Form.PositiveOfPositive` | components/DiaryForm.tsx:116 | a list of positive counts passes the filter unchanged |
| `Form.PositiveKeepsTotal` | components/DiaryForm.tsx:116 | dropping zero counts does not change the total |
| `Form.BumpAllSnoc` | components/DiaryForm.tsx:116 | the count map works item by item |
| `Form.BumpTotal` | components/DiaryForm.tsx:116 | the count map changes the total by the change of the matching snacks |
| `Form.UpdateTotal` | components/DiaryForm.tsx:113-118 | an update changes the snack total by exactly the change of the matching snack's count |
| `Form.CountChangeOfOne` | components/DiaryForm.tsx:116 | with one matching snack, the change is `max(0, count + delta) - count` |
| `Form.CountChangeOfNone` | components/DiaryForm.tsx:116 | with no matching snack, nothing changes |
| `Form.UpdateMatching` | components/DiaryForm.tsx:113-118 | the matching snack stays, with count + delta, iff that is positive |
| `Form.PositiveKeepsFields` | components/DiaryForm.tsx:116 | filtering keeps chip timings and distinct ids |
| `Form.UpdateStaysWellFormed` | components/DiaryForm.tsx:113-118 | an update keeps the snack list well formed |
| `Form.AppendStaysWellFormed` | components/DiaryForm.tsx:109 | appending a fresh snack with a chip timing keeps the list well formed |
| `Form.AppendTotal` | components/DiaryForm.tsx:109 | appending a snack of count 1 adds 1 to the total |
| `Form.AddedSnackFacts` | components/DiaryForm.tsx:100-111 | the snack `addSnack` appends (next id, count 1, a picked meal and before/after) keeps the list well formed and adds 1 to the total |
| `Form.DiaryForm.constructor` | components/DiaryForm.tsx:59-78 | the form starts empty, with 100% rates, no snacks, zero scoldings and breakfast/after picked |
| `Form.DiaryForm.SetSnackName` | components/DiaryForm.tsx:261 | only the snack-name input changes |
| `Form.DiaryForm.SelectMeal` | components/DiaryForm.tsx:225 | only the meal pick changes, to a valid meal |
| `Form.DiaryForm.SelectRelative` | components/DiaryForm.tsx:245 | only the before/after pick changes, to a valid choice |
| `Form.DiaryForm.TotalSnacks` | components/DiaryForm.tsx:87-89 | in a well-formed snack list the total is at least the number of rows, and 0 only for an empty list |
| `Form.DiaryForm.OverSnackWarning` | components/DiaryForm.tsx:213 | the over-snacking warning is shown iff the snack counts add up to 3 or more; so any three rows of a well-formed list bring it up, and an empty list never does |
| `Form.DiaryForm.AddSnack` | components/DiaryForm.tsx:100-111 | a blank name changes nothing; otherwise the snack with the trimmed name, count 1 and the picked timing is appended, the total grows by 1 and the input is cleared |
| `Form.DiaryForm.UpdateSnackCount` | components/DiaryForm.tsx:113-118 | the ± buttons set the snack's count to `max(0, count + delta)` and drop it at 0; other snacks are untouched; the total changes by exactly that snack's change |
| `Form.DiaryForm.DecrementDiscipline` | components/DiaryForm.tsx:341 | the scolding count goes down by 1 but never below 0 |
| `Form.DiaryForm.IncrementDiscipline` | components/DiaryForm.tsx:343 | the scolding count goes up by 1 |
| `Form.DiaryForm.Submit` | components/DiaryForm.tsx:120-133 | the current record is handed over, and the form is reset: no image, blank texts, 100% rates, no snacks, zero scoldings and no behaviour field; the snack name and picks are kept |
| `GuideView.StripBullet` | components/MonthlyGuideSection.tsx:38 | the bullet removal gives a suffix of the line, shorter iff the line starts with a bullet, by two characters iff white space follows the bullet, and never by more than two (so by exactly one for a bullet without white space after it) |
| `GuideView.NoNewlineAfterTrim` | components/MonthlyGuideSection.tsx:33 | trimming brings in no line feed |
| `GuideView.ShownLines` | components/MonthlyGuideSection.tsx:31-34 | the shown lines are non-empty, trimmed and free of line feeds |
| `GuideView.ShownLinesMembers` | components/MonthlyGuideSection.tsx:31-34 | a line is shown iff it is not empty and some piece of the text between line feeds trims to it |
| `GuideView.TrimmedPiecesClean` | components/MonthlyGuideSection.tsx:31-34 | trimming pieces split at line feeds gives trimmed pieces without line feeds |
| `GuideView.RenderLines` | components/MonthlyGuideSection.tsx:27-43 | nothing is rendered iff the text is absent or empty; otherwise one item per shown line, each item being that shown line with its bullet stripped |
| `GuideView.RenderJoined` | components/MonthlyGuideSection.tsx:27-43 | clean lines joined with line feeds render back one for one, bullets stripped |
| `GuideView.RenderUniq` | components/MonthlyGuideSection.tsx:27-43 | a section built by `uniq` and `join` renders as exactly its lines in order, or as nothing when empty, and shows no duplicates |
| `GuideView.StripBaseAndBullet` | components/MonthlyGuideSection.tsx:38 | bucket texts are shown unchanged, and an advice line loses its bullet and the following space |
| `GuideView.RenderGuide` | components/MonthlyGuideSection.tsx:19-71 | only the placeholder while loading; otherwise each of the three sections renders its text of the guide (`RenderLines`), nothing without a guide, and the discipline block appears iff the guide's discipline text is present and non-empty |
| `GuideView.DisciplineBlockFollowsRecord` | components/MonthlyGuideSection.tsx:66-71 | for the engine's guide, the discipline block appears iff the caregiver opted in, there is an entry, and it records a scolding, a behaviour or a situation |

Functions that only compute a value have no row of their own. The rows of the lemmas and methods about them state what they mean:

- `Snacks.SumCounts` (`totalSnacks`, the engine's snack total): `Snacks.SumCountsAppend`, `Snacks.SumCountsAtLeastLength`, `Snacks.AfterDinnerCount`, `Form.UpdateTotal`, `Form.AppendTotal`.
- `Snacks.IsSugary`, `Snacks.HasSugarySnack` (services/geminiService.ts:203-204): `GuideProperties.SnackAdvice`, `Snacks.SugaryExample`, `Snacks.SnackTallyExample`.
- `AutoInsights.PickyAuto` (App.tsx:79-80): `AutoInsights.PickyAutoBySums`, `AutoInsights.SkippedMealIsZeroRate`, `AutoInsights.AgreesWithEngineWhenAllRated`, `AutoInsights.BuildAutoInsights`.
- `GuideEngine.LowAverageRate`, `GuideEngine.SkippedMeal`: `GuideProperties.MealAdvice`, `AutoInsights.AgreesWithEngineWhenAllRated`.
- `GuideEngine.MacroSummary`: `GuideProperties.MacroSummaryShape`, `GuideProperties.MacroAdvice`.
- `GuideEngine.DisciplineNote`: `GuideProperties.NoteOfTrimmed`, `GuideProperties.BlankNote`, `GuideProperties.ThrowAndHitNote`.
- The rule lists, `GuideEngine.PlayLines` to `GuideEngine.DisciplineLines`: the `…Char` lemmas, the `…Advice` lemmas and the `…Trimmed` lemmas of `GuideProperties`.
- `GuideEngine.ComposeSections`: the four `GuideProperties.…SectionKeepsLines` lemmas.
- `GuideEngine.GuideFor`, `GuideEngine.ComposeGuide`: `GuideEngine.RuleBasedDevelopmentGuide`, `GuideProperties.DisciplinePresence`, `GuideProperties.GuideTextsNonEmpty`, `GuideProperties.OptOutIgnoresEntry`.
- `Form.UpdateCounts`, `Form.Bump`, `Form.BumpAll`, `Form.Max0`: `Form.UpdateKeepsOthers`, `Form.UpdateMatching`, `Form.UpdateTotal`, `Form.UpdateStaysWellFormed`, `Form.DiaryForm.UpdateSnackCount`.
- `Text.Contains`, `Text.ContainsAny`: `Text.FirstCharsAbsent`, `GuideProperties.KeywordInsightLines`, `Snacks.AfterDinnerSnacks`.
- `Text.JoinLines`: `Text.SplitJoin`, `Text.JoinSplit`, `GuideProperties.JoinedNonEmpty`, `GuideView.RenderJoined`.
- `Dedup.TrimAll`: `Dedup.UniqMembers`, `Dedup.TrimAllAppend`.
- `App.Latest`, `App.Stamp`, `App.GuideOf`, `App.EffectiveFor`, `App.DiaryApp.LatestEntry`: `App.DiaryApp.SaveEntry`, `App.NewestEntryDecides`, `App.FetchGuide`, `App.GuideOfSections`.

## Left out

- Floating point: ages are whole months, `NaN` or finite reals. Infinities are not modelled. Meal rates and grams are whole numbers. The engine's mean of three is compared through the sum (`< 240`). A missing rate stands for the `NaN` that JavaScript's sum produces there.
- Identifiers: entry ids (`Math.random`) and snack ids (`Date.now`) are natural-number counters, and the date is a parameter.
  - The source's random and clock ids are only very likely distinct. The distinctness that `App.DiaryApp.SaveEntry` and `Form.DiaryForm.Valid` keep is a property of the counters.
- Storage: persistence in `localStorage` is not modelled. This covers:
  - loading entries and traits, with the defaults filled in;
  - saving only the 90 newest entries (`App.tsx:123-138`).
- Timing: the asynchronous fetch is split into `BeginFetch`, `FetchGuide` and `ShowGuide`.
  - React's effect scheduling and any interleaving of two fetches are not modelled.
- Months: the age held by the application is a `nat`, because the age input clamps it with `Math.max(0, parseInt(...) || 0)`.
- Not modelled at all: the toast, theming, logging, the image upload (`FileReader`) and the JSX layout.
  - `components/Header.tsx`, `components/ChildTraitsForm.tsx` and `components/ui/Card.tsx` are not part of this model, beyond the setters they call.
- Form fields: the plain per-field setters of the diary form (menus, rates, grams, play, milestone, behaviour, situation, image) are not modelled. Each only replaces one field.
- Snack grouping: the grouping of snacks under their timing chip in the form's list (`components/DiaryForm.tsx:275-300`) is rendering only.
- GuideView.RenderUniq: takes the absence of line feeds in the section lines as a hypothesis. Every advice line and bucket text holds none, but that is not proved for every text.
- GuideView.ShownLines: states the shape of the shown lines, and GuideView.ShownLinesMembers which pieces they come from, but no lemma states their order for an arbitrary text. For texts joined from clean lines, GuideView.RenderJoined pins them down exactly, order included.
- Macros.RoundPct: rounds the exact share, while the source rounds the double `(part / total) * 100`. At an exact half the double can fall just below .5, so the source shows one less. For example, 116 of 800 kcal is 14.499999999999998 as a double, so the source shows 14 where the model gives 15.
- Macros.CalcMacroPct: inherits that difference. For some gram amounts a shown share, and a warning that depends on it, differs by one from the source. For example, with 1539/0/116 g the source's fat share is 14 and the model's is 15, so only the source warns about fat at 36 months or younger.
- `MonthRange` in `types.ts` is unused by the core.
- `getDevelopmentGuide` (`services/geminiService.ts:86-89`) only returns the static guide, so `AgeBuckets.StaticGuide` covers it.
