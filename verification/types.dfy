/**
 * The records the diary and the guide engine exchange (types.ts). Identifiers, which the
 * program draws from the clock or a random generator, are natural numbers here.
 */
module Types {
  import opened Wrappers

  datatype Gender = Girl | Boy

  /** `ChildTraits['pickyEating']`: 'none' | 'some' | 'severe'. */
  datatype PickyEating = PickyNone | PickySome | PickySevere

  /** `ChildTraits['sleepIssue']`: 'none' | 'hardToSleep' | 'frequentWake'. */
  datatype SleepIssue = SleepNone | HardToSleep | FrequentWake

  /** What the caregiver ticks in the trait form, plus the opt-in for record-derived advice. */
  datatype ChildTraits = ChildTraits(
    pickyEating: PickyEating,
    sleepIssue: SleepIssue,
    languageConcern: bool,
    grossMotorConcern: bool,
    fineMotorConcern: bool,
    snackOften: bool,
    useAutoInsights: bool)

  /** One snack row: `timing` is "<meal> <before/after>", e.g. "저녁 후". */
  datatype SnackItem = SnackItem(id: nat, name: string, count: nat, timing: string)

  /**
   * A day's meals. A meal rate is one of 0, 50, 100, 125 (percent eaten); it is optional here
   * because the program tests it with `typeof === 'number'`. Grams are optional.
   */
  datatype Nutrition = Nutrition(
    breakfastMenu: string, breakfastRate: Option<nat>,
    lunchMenu: string, lunchRate: Option<nat>,
    dinnerMenu: string, dinnerRate: Option<nat>,
    carbsG: Option<nat>, proteinG: Option<nat>, fatG: Option<nat>,
    snacks: seq<SnackItem>)

  datatype PlayRecord = PlayRecord(fineMotor: string, grossMotor: string, books: string)

  /** Scoldings of the day; `behavior` is absent after the form's reset drops it. */
  datatype DisciplineRecord = DisciplineRecord(count: nat, situation: string, behavior: Option<string>)

  /** What the diary form hands over on submit (a `DiaryEntry` without id, date, months, gender). */
  datatype EntryDraft = EntryDraft(
    imageUrl: Option<string>,
    play: PlayRecord,
    nutrition: Nutrition,
    milestone: string,
    discipline: DisciplineRecord)

  datatype DiaryEntry = DiaryEntry(
    id: nat,
    date: string,
    months: nat,
    gender: Gender,
    imageUrl: Option<string>,
    play: PlayRecord,
    nutrition: Nutrition,
    milestone: string,
    discipline: DisciplineRecord)

  /** The guide: newline-joined advice per section; `discipline` is absent when no rule fired. */
  datatype GuideData = GuideData(play: string, education: string, nutrition: string, discipline: Option<string>)

  /** A JavaScript number as the age input: not-a-number, or a finite value. */
  datatype JsNumber = NaN | Num(value: real)
}
