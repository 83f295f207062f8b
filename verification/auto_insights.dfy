/**
 * The auto-trait derivation of App.tsx. `buildAutoInsights` reads the latest entry's meal rates
 * and snacks; `effectiveTraits` merges what it derives into the caregiver's checklist before
 * the guide engine runs.
 */
module AutoInsights {
  import opened Wrappers
  import opened Types
  import opened Snacks
  import opened AgeBuckets
  import opened Advice
  import opened GuideEngine
  import opened GuideProperties

  /** What `buildAutoInsights` returns: the derived traits and the figures they came from. */
  datatype Insights = Insights(
    pickyAuto: PickyEating,
    snackOftenAuto: bool,
    avgRate: real,
    totalSnacks: nat,
    carbsG: Option<nat>,
    proteinG: Option<nat>,
    fatG: Option<nat>,
    disciplineCount: nat,
    disciplineBehavior: Option<string>,
    disciplineSituation: string)

  /** A rate as a one-element list when it is a number, as `filter((v) => typeof v === 'number')` keeps it. */
  function Numeric(rate: Option<nat>): seq<nat> {
    if rate.Some? then [rate.value] else []
  }

  /** The rates that are numbers, in meal order. */
  function NumericRates(n: Nutrition): (r: seq<nat>)
    ensures |r| <= 3
    ensures forall v :: v in r <==> n.breakfastRate == Some(v) || n.lunchRate == Some(v) || n.dinnerRate == Some(v)
  {
    Numeric(n.breakfastRate) + Numeric(n.lunchRate) + Numeric(n.dinnerRate)
  }

  /** `rates.reduce((a, b) => a + b, 0)`. */
  function Sum(xs: seq<nat>): nat
    decreases |xs|
  {
    if xs == [] then 0 else Sum(xs[..|xs| - 1]) + xs[|xs| - 1]
  }

  /** The mean of the rates, 100 when there is none. */
  function AverageRate(rates: seq<nat>): (avg: real)
    ensures |rates| == 0 ==> avg == 100.0
    ensures |rates| > 0 ==> avg * (|rates| as real) == Sum(rates) as real
  {
    if |rates| > 0 then (Sum(rates) as real) / (|rates| as real) else 100.0
  }

  /** 'severe' below a mean of 50 or on an uneaten meal, 'some' below 80, 'none' otherwise. */
  function PickyAuto(n: Nutrition): PickyEating {
    var rates := NumericRates(n);
    var avg := AverageRate(rates);
    if avg < 50.0 || 0 in rates then PickySevere
    else if avg < 80.0 then PickySome
    else PickyNone
  }

  /**
   * `buildAutoInsights`: nothing without an entry. Otherwise the picky level is the one the
   * entry's meal rates give, the average is the mean of its numeric rates (100 with none), the
   * snack flag is set exactly when the snack counts add up to 3 or more, and the remaining
   * fields are copied from the entry.
   */
  function BuildAutoInsights(entry: Option<DiaryEntry>): (r: Option<Insights>)
    ensures r.None? <==> entry.None?
    ensures r.Some? ==> && r.value.pickyAuto == PickyAuto(entry.value.nutrition)
                        && r.value.avgRate == AverageRate(NumericRates(entry.value.nutrition))
    ensures r.Some? ==> && r.value.totalSnacks == SumCounts(entry.value.nutrition.snacks)
                        && (r.value.snackOftenAuto <==> SumCounts(entry.value.nutrition.snacks) >= 3)
    ensures r.Some? ==> && r.value.carbsG == entry.value.nutrition.carbsG
                        && r.value.proteinG == entry.value.nutrition.proteinG
                        && r.value.fatG == entry.value.nutrition.fatG
                        && r.value.disciplineCount == entry.value.discipline.count
                        && r.value.disciplineBehavior == entry.value.discipline.behavior
                        && r.value.disciplineSituation == entry.value.discipline.situation
  {
    match entry
    case None => None
    case Some(e) =>
      var n := e.nutrition;
      var totalSnacks := SumCounts(n.snacks);
      Some(Insights(
        PickyAuto(n), totalSnacks >= 3, AverageRate(NumericRates(n)), totalSnacks,
        n.carbsG, n.proteinG, n.fatG,
        e.discipline.count, e.discipline.behavior, e.discipline.situation))
  }

  /** The mean of `k > 0` rates is below `c` exactly when their sum is below `c * k`. */
  lemma MeanBelow(s: nat, k: nat, avg: real, c: nat)
    requires k > 0 && avg * (k as real) == s as real
    ensures avg < c as real <==> s < c * k
  {
    var kr := k as real;
    if avg < c as real {
      assert avg * kr < (c as real) * kr;
    } else {
      assert avg * kr >= (c as real) * kr;
    }
  }

  /**
   * The picky level in whole numbers: with `k` numeric rates summing to `s`, 'severe' exactly
   * when some rate is 0 or `s < 50k`; 'some' exactly when neither holds but `s < 80k`; 'none'
   * otherwise, in particular when no rate is a number.
   */
  lemma PickyAutoBySums(n: Nutrition)
    ensures var rates := NumericRates(n);
      var k, s := |rates|, Sum(rates);
      && (PickyAuto(n) == PickySevere <==> 0 in rates || (k > 0 && s < 50 * k))
      && (PickyAuto(n) == PickySome <==> 0 !in rates && k > 0 && 50 * k <= s < 80 * k)
      && (PickyAuto(n) == PickyNone <==> k == 0 || (0 !in rates && 80 * k <= s))
  {
    var rates := NumericRates(n);
    var k, s, avg := |rates|, Sum(rates), AverageRate(rates);
    if k > 0 {
      MeanBelow(s, k, avg, 50);
      MeanBelow(s, k, avg, 80);
    }
  }

  /** An uneaten meal is a numeric rate of 0, the same test as the engine's skipped-meal rule. */
  lemma SkippedMealIsZeroRate(n: Nutrition)
    ensures SkippedMeal(n) <==> 0 in NumericRates(n)
    ensures SkippedMeal(n) ==> PickyAuto(n) == PickySevere
  {
  }

  /**
   * With all three rates recorded, the auto level is 'some' or 'severe' exactly when the
   * engine's low-intake or skipped-meal rule fires on the same entry.
   */
  lemma AgreesWithEngineWhenAllRated(n: Nutrition)
    requires n.breakfastRate.Some? && n.lunchRate.Some? && n.dinnerRate.Some?
    ensures PickyAuto(n) != PickyNone <==> LowAverageRate(n) || SkippedMeal(n)
  {
    var b, l, d := n.breakfastRate.value, n.lunchRate.value, n.dinnerRate.value;
    var rates := NumericRates(n);
    assert rates == [b, l, d];
    assert Sum([b, l, d]) == Sum([b, l]) + d by {
      assert [b, l, d][..2] == [b, l];
    }
    assert Sum([b, l]) == Sum([b]) + l by {
      assert [b, l][..1] == [b];
    }
    assert Sum([b]) == b by {
      assert [b][..0] == [];
    }
    PickyAutoBySums(n);
  }

  /**
   * With a rate missing the two disagree: two half-eaten meals and no breakfast rate give
   * 'some' (a mean of 50 over the two numbers), while the engine's mean over three is not a
   * number and its low-intake rule stays silent.
   */
  lemma DivergesOnMissingRate()
    ensures var n := Nutrition("", None, "", Some(50), "", Some(50), None, None, None, []);
      PickyAuto(n) == PickySome && !LowAverageRate(n) && !SkippedMeal(n)
  {
    var n := Nutrition("", None, "", Some(50), "", Some(50), None, None, None, []);
    assert NumericRates(n) == [50, 50];
    assert Sum([50, 50]) == 100 by {
      assert [50, 50][..1] == [50];
    }
    PickyAutoBySums(n);
  }

  /**
   * `effectiveTraits`: the caregiver's traits unchanged without an opt-in or without insights.
   * Otherwise the picky level is replaced by the derived one, the snack flag can only be
   * switched on, and every other field is kept.
   */
  function EffectiveTraits(traits: ChildTraits, auto: Option<Insights>): (r: ChildTraits)
    ensures !traits.useAutoInsights || auto.None? ==> r == traits
    ensures traits.useAutoInsights && auto.Some? ==>
      r.pickyEating == auto.value.pickyAuto && (r.snackOften <==> traits.snackOften || auto.value.snackOftenAuto)
    ensures traits.snackOften ==> r.snackOften
    ensures && r.sleepIssue == traits.sleepIssue && r.languageConcern == traits.languageConcern
            && r.grossMotorConcern == traits.grossMotorConcern && r.fineMotorConcern == traits.fineMotorConcern
            && r.useAutoInsights == traits.useAutoInsights
  {
    if !traits.useAutoInsights || auto.None? then traits
    else traits.(pickyEating := auto.value.pickyAuto, snackOften := traits.snackOften || auto.value.snackOftenAuto)
  }

  /**
   * The record steers the trait advice too: for an opted-in caregiver with an entry, the guide
   * built from the effective traits carries the severe picky-eating line exactly when the
   * entry's level is 'severe', and a day with 3 or more snacks brings both the snack-habit line
   * and the many-snacks warning.
   */
  lemma RecordDrivesTraitAdvice(base: string, m: nat, traits: ChildTraits, latest: Option<DiaryEntry>)
    requires IsBaseText(base) && InsightsApply(traits, latest)
    ensures var t := EffectiveTraits(traits, BuildAutoInsights(latest));
      var lines := NutritionLines(base, m, t, latest);
      && (NutSafeFoodFirst in lines <==> PickyAuto(latest.value.nutrition) == PickySevere)
      && (SumCounts(latest.value.nutrition.snacks) >= 3 ==> NutFixedSnackTime in lines && NutManySnacks in lines)
  {
    var t := EffectiveTraits(traits, BuildAutoInsights(latest));
    SeverePickyEatingAdvice(base, m, t, latest);
    SleepAndSnackHabitAdvice(base, m, t, latest);
    SnackAdvice(base, m, t, latest);
  }
}
