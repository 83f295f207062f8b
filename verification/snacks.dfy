/**
 * Snack tallies over a day's snack list, shared by the guide engine
 * (services/geminiService.ts), the auto-trait derivation (App.tsx) and the diary form
 * (components/DiaryForm.tsx).
 */
module Snacks {
  import opened Text
  import opened Types

  /** The timing token that marks a snack eaten after dinner. */
  const AfterDinner := "저녁 후"

  /** Snack names containing one of these count as sugary. */
  const SugaryKeywords: seq<string> := ["과자", "쿠키", "초코", "사탕", "젤리", "주스", "콜라", "빵", "아이스"]

  /** `snacks.reduce((acc, s) => acc + (s.count || 0), 0)`: the total of the counts. */
  function SumCounts(snacks: seq<SnackItem>): nat
    decreases |snacks|
  {
    if snacks == [] then 0
    else SumCounts(snacks[..|snacks| - 1]) + snacks[|snacks| - 1].count
  }

  lemma {:induction false} SumCountsAppend(a: seq<SnackItem>, b: seq<SnackItem>)
    ensures SumCounts(a + b) == SumCounts(a) + SumCounts(b)
    decreases |b|
  {
    if b == [] {
      assert a + b == a;
    } else {
      var b' := b[..|b| - 1];
      assert (a + b)[..|a + b| - 1] == a + b';
      SumCountsAppend(a, b');
    }
  }

  /** When every count is positive, the total is at least the number of items. */
  lemma {:induction false} SumCountsAtLeastLength(snacks: seq<SnackItem>)
    requires forall i | 0 <= i < |snacks| :: snacks[i].count > 0
    ensures SumCounts(snacks) >= |snacks|
    decreases |snacks|
  {
    if snacks != [] {
      SumCountsAtLeastLength(snacks[..|snacks| - 1]);
    }
  }

  /** `(s.timing || "").includes("저녁 후")`. */
  predicate IsAfterDinner(s: SnackItem) {
    Contains(s.timing, AfterDinner)
  }

  /** `snacks.filter(...)`: the after-dinner snacks, in their order. */
  function AfterDinnerSnacks(snacks: seq<SnackItem>): (r: seq<SnackItem>)
    ensures |r| <= |snacks|
    ensures forall s :: s in r <==> s in snacks && IsAfterDinner(s)
    decreases |snacks|
  {
    if snacks == [] then []
    else
      var init, s := snacks[..|snacks| - 1], snacks[|snacks| - 1];
      assert snacks == init + [s];
      if IsAfterDinner(s) then AfterDinnerSnacks(init) + [s] else AfterDinnerSnacks(init)
  }

  /**
   * The after-dinner total: never more than the whole total, and equal to it exactly when
   * every snack with a non-zero count is an after-dinner one.
   */
  function AfterDinnerCount(snacks: seq<SnackItem>): (r: nat)
    ensures r <= SumCounts(snacks)
    ensures r == SumCounts(snacks) <==> forall i | 0 <= i < |snacks| :: snacks[i].count > 0 ==> IsAfterDinner(snacks[i])
    decreases |snacks|
  {
    if snacks == [] then 0
    else
      var init, s := snacks[..|snacks| - 1], snacks[|snacks| - 1];
      assert forall i | 0 <= i < |init| :: init[i] == snacks[i];
      AfterDinnerCount(init) + (if IsAfterDinner(s) then s.count else 0)
  }

  /** The after-dinner total is the total of the filtered list, as filter-then-reduce computes it. */
  lemma {:induction false} AfterDinnerCountIsFilteredSum(snacks: seq<SnackItem>)
    ensures AfterDinnerCount(snacks) == SumCounts(AfterDinnerSnacks(snacks))
    decreases |snacks|
  {
    if snacks != [] {
      var init, s := snacks[..|snacks| - 1], snacks[|snacks| - 1];
      AfterDinnerCountIsFilteredSum(init);
      if IsAfterDinner(s) {
        SumCountsAppend(AfterDinnerSnacks(init), [s]);
        assert SumCounts([s]) == s.count by {
          assert [s][..0] == [];
        }
      }
    }
  }

  /** The snack's name contains a sugary keyword. */
  predicate IsSugary(s: SnackItem) {
    ContainsAny(s.name, SugaryKeywords)
  }

  /** `snacks.some(...)`: some snack is sugary. */
  predicate HasSugarySnack(snacks: seq<SnackItem>) {
    exists i | 0 <= i < |snacks| :: IsSugary(snacks[i])
  }

  /** Two snacks after dinner and one before breakfast: 3 in all, 2 after dinner, none sugary. */
  lemma SnackTallyExample()
    ensures var snacks := [SnackItem(1, "바나나", 2, "저녁 후"), SnackItem(2, "요거트", 1, "아침 전")];
            SumCounts(snacks) == 3 && AfterDinnerCount(snacks) == 2 && !HasSugarySnack(snacks)
  {
    var a, b := SnackItem(1, "바나나", 2, "저녁 후"), SnackItem(2, "요거트", 1, "아침 전");
    assert OccursAt(a.timing, AfterDinner, 0);
    FirstCharAbsent(b.timing, AfterDinner);
    assert [a, b][..1] == [a];
    FirstCharsAbsent(a.name, SugaryKeywords);
    FirstCharsAbsent(b.name, SugaryKeywords);
  }

  /** A chocolate snack is sugary. */
  lemma SugaryExample()
    ensures HasSugarySnack([SnackItem(1, "초코", 1, "점심 후")])
  {
    var snacks := [SnackItem(1, "초코", 1, "점심 후")];
    assert OccursAt(snacks[0].name, SugaryKeywords[2], 0);
    assert IsSugary(snacks[0]);
  }
}
