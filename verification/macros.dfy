/**
 * `calcMacroPct` (services/geminiService.ts): the energy split of a day's carbohydrate,
 * protein and fat grams, at 4, 4 and 9 kcal per gram. Grams are whole numbers here.
 */
module Macros {
  import opened Wrappers

  datatype MacroSplit = MacroSplit(carbPct: nat, proteinPct: nat, fatPct: nat, totalKcal: nat)

  /**
   * `pct` is `100 * part / total` rounded to the nearest integer, halves upwards (what
   * `Math.round` does for non-negative values): `pct - 1/2 <= 100 * part / total < pct + 1/2`.
   */
  predicate IsRoundedShare(pct: int, part: int, total: int) {
    2 * total * pct <= 200 * part + total < 2 * total * pct + 2 * total
  }

  /** `Math.round((part / total) * 100)` on whole numbers, with `total > 0`. */
  function RoundPct(part: nat, total: nat): (r: nat)
    requires 0 < total
    ensures IsRoundedShare(r, part, total)
    ensures part <= total ==> r <= 100
  {
    RoundPctFacts(part, total);
    (200 * part + total) / (2 * total)
  }

  lemma RoundPctFacts(part: nat, total: nat)
    requires 0 < total
    ensures IsRoundedShare((200 * part + total) / (2 * total), part, total)
    ensures part <= total ==> (200 * part + total) / (2 * total) <= 100
  {
    var r := (200 * part + total) / (2 * total);
    assert 200 * part + total == 2 * total * r + (200 * part + total) % (2 * total);
    if part <= total && r > 100 {
      MulMonotone(2 * total, 101, r);
      assert false;
    }
  }

  lemma MulMonotone(t: nat, x: int, y: int)
    requires x <= y
    ensures t * x <= t * y
  {
  }

  /** The energy of the given grams, an absent amount counting as 0. */
  function Kcal(carbsG: Option<nat>, proteinG: Option<nat>, fatG: Option<nat>): nat {
    carbsG.GetOr(0) * 4 + proteinG.GetOr(0) * 4 + fatG.GetOr(0) * 9
  }

  /**
   * `calcMacroPct`: no split when no amount is given or when every given amount is zero.
   * Otherwise each share is the rounded percentage of the total energy, the shares lie in
   * 0..100 and, rounded independently, add up to 99, 100 or 101.
   */
  function CalcMacroPct(carbsG: Option<nat>, proteinG: Option<nat>, fatG: Option<nat>): (r: Option<MacroSplit>)
    ensures r.None? <==> (carbsG.None? && proteinG.None? && fatG.None?)
                         || (carbsG.GetOr(0) == 0 && proteinG.GetOr(0) == 0 && fatG.GetOr(0) == 0)
    ensures r.Some? ==> r.value.totalKcal == Kcal(carbsG, proteinG, fatG)
    ensures r.Some? ==> && IsRoundedShare(r.value.carbPct, 4 * carbsG.GetOr(0), r.value.totalKcal)
                        && IsRoundedShare(r.value.proteinPct, 4 * proteinG.GetOr(0), r.value.totalKcal)
                        && IsRoundedShare(r.value.fatPct, 9 * fatG.GetOr(0), r.value.totalKcal)
    ensures r.Some? ==> r.value.carbPct <= 100 && r.value.proteinPct <= 100 && r.value.fatPct <= 100
    ensures r.Some? ==> 99 <= r.value.carbPct + r.value.proteinPct + r.value.fatPct <= 101
  {
    if carbsG.None? && proteinG.None? && fatG.None? then None
    else
      var cK, pK, fK := carbsG.GetOr(0) * 4, proteinG.GetOr(0) * 4, fatG.GetOr(0) * 9;
      var total := cK + pK + fK;
      if total <= 0 then None
      else
        var split := MacroSplit(RoundPct(cK, total), RoundPct(pK, total), RoundPct(fK, total), total);
        SharesSumNear100(split.carbPct, split.proteinPct, split.fatPct, cK, pK, fK, total);
        Some(split)
  }

  /** Three rounded shares of one whole add up to 100 give or take 1. */
  lemma SharesSumNear100(a: int, b: int, c: int, pa: int, pb: int, pc: int, t: int)
    requires t > 0 && pa + pb + pc == t
    requires IsRoundedShare(a, pa, t) && IsRoundedShare(b, pb, t) && IsRoundedShare(c, pc, t)
    ensures 99 <= a + b + c <= 101
  {
    var s, u := a + b + c, 2 * t;
    Distribute(u, a, b, c);
    assert u * s <= 203 * t;
    assert 197 * t < u * s;
    if s > 101 {
      MulMonotone(2 * t, 102, s);
      assert false;
    }
    if s < 99 {
      MulMonotone(2 * t, s, 98);
      assert false;
    }
  }

  lemma Distribute(u: int, a: int, b: int, c: int)
    ensures u * a + u * b + u * c == u * (a + b + c)
  {
  }

  /** 100 g of carbohydrate alone is all carbohydrate: 100/0/0 % of 400 kcal. */
  lemma CarbsOnlyExample()
    ensures CalcMacroPct(Some(100), None, None) == Some(MacroSplit(100, 0, 0, 400))
  {
  }

  /** 50/20/10 g is 200 + 80 + 90 = 370 kcal, split 54/22/24 %. */
  lemma MixedExample()
    ensures CalcMacroPct(Some(50), Some(20), Some(10)) == Some(MacroSplit(54, 22, 24, 370))
  {
  }

  /** All absent, or all zero, gives no split. */
  lemma NoSplitExamples()
    ensures CalcMacroPct(None, None, None).None?
    ensures CalcMacroPct(Some(0), Some(0), Some(0)).None?
  {
  }
}
