/**
 * The diary form (components/DiaryForm.tsx): the day's record being filled in, the snack
 * picker, the scolding counter and the submit that hands the record over and clears the form.
 * Snack ids, which the program takes from the clock, come from a counter here.
 */
module Form {
  import opened Wrappers
  import opened Text
  import opened Types
  import opened Snacks

  const Meals: seq<string> := ["아침", "점심", "저녁"]
  const Relatives: seq<string> := ["전", "후"]
  /** The timing chips the snack list is grouped by. */
  const AllTimings: seq<string> := ["아침 전", "아침 후", "점심 전", "점심 후", "저녁 전", "저녁 후"]

  /** The timing `addSnack` gives a snack: meal and before/after joined by a space. */
  function Timing(meal: string, relative: string): string {
    meal + " " + relative
  }

  /** Every combination the meal and before/after pickers can produce is one of the six chips. */
  lemma TimingIsChip(meal: string, rel: string)
    requires meal in Meals && rel in Relatives
    ensures Timing(meal, rel) in AllTimings
  {
    var i :| 0 <= i < 3 && Meals[i] == meal;
    var j :| 0 <= j < 2 && Relatives[j] == rel;
    assert Timing(meal, rel) == AllTimings[2 * i + j];
  }

  /** Every chip is a combination the pickers can produce. */
  lemma ChipIsTiming(t: string)
    requires t in AllTimings
    ensures exists meal, rel | meal in Meals && rel in Relatives :: t == Timing(meal, rel)
  {
    var i :| 0 <= i < 6 && AllTimings[i] == t;
    var meal, rel := Meals[i / 2], Relatives[i % 2];
    assert t == Timing(meal, rel);
  }

  /**
   * Of the picker's combinations, only dinner-after counts as an after-dinner snack for the
   * guide's late-snack rule.
   */
  lemma AfterDinnerChip(meal: string, rel: string)
    requires meal in Meals && rel in Relatives
    ensures Contains(Timing(meal, rel), AfterDinner) <==> meal == "저녁" && rel == "후"
  {
    var t := Timing(meal, rel);
    if meal == "저녁" {
      assert |t| == |AfterDinner|;
      assert Contains(t, AfterDinner) <==> OccursAt(t, AfterDinner, 0);
      if rel == "전" {
        assert t[3] != AfterDinner[3];
      } else {
        assert OccursAt(t, AfterDinner, 0);
      }
    } else {
      FirstCharAbsent(t, AfterDinner);
    }
  }

  /** `Math.max(0, x)`. */
  function Max0(x: int): nat {
    if x < 0 then 0 else x
  }

  /** The map step of `updateSnackCount` on one snack. */
  function Bump(s: SnackItem, id: nat, delta: int): SnackItem {
    if s.id == id then s.(count := Max0(s.count + delta)) else s
  }

  function BumpAll(snacks: seq<SnackItem>, id: nat, delta: int): seq<SnackItem> {
    seq(|snacks|, i requires 0 <= i < |snacks| => Bump(snacks[i], id, delta))
  }

  /** `filter((s) => s.count > 0)`: the snacks with a positive count, in their order. */
  function Positive(snacks: seq<SnackItem>): (r: seq<SnackItem>)
    ensures |r| <= |snacks|
    ensures forall s :: s in r <==> s in snacks && s.count > 0
    ensures forall i | 0 <= i < |r| :: r[i].count > 0
    decreases |snacks|
  {
    if snacks == [] then []
    else
      var init, s := snacks[..|snacks| - 1], snacks[|snacks| - 1];
      assert snacks == init + [s];
      if s.count > 0 then Positive(init) + [s] else Positive(init)
  }

  /** The snack list after `updateSnackCount(id, delta)`. */
  function UpdateCounts(snacks: seq<SnackItem>, id: nat, delta: int): seq<SnackItem> {
    Positive(BumpAll(snacks, id, delta))
  }

  /** The snacks with an id other than `id`, kept in their order. */
  function OtherIds(snacks: seq<SnackItem>, id: nat): (r: seq<SnackItem>)
    ensures forall s :: s in r <==> s in snacks && s.id != id
    decreases |snacks|
  {
    if snacks == [] then []
    else
      var init, s := snacks[..|snacks| - 1], snacks[|snacks| - 1];
      assert snacks == init + [s];
      if s.id != id then OtherIds(init, id) + [s] else OtherIds(init, id)
  }

  /** Every snack has a chip timing, and the ids are distinct and below `next`. */
  predicate SnackFields(snacks: seq<SnackItem>, next: nat) {
    && (forall i | 0 <= i < |snacks| :: snacks[i].timing in AllTimings && snacks[i].id < next)
    && (forall i, j | 0 <= i < j < |snacks| :: snacks[i].id != snacks[j].id)
  }

  /** The form's snack list: chip timings, distinct ids below `next`, and every count positive. */
  predicate SnacksWellFormed(snacks: seq<SnackItem>, next: nat) {
    SnackFields(snacks, next) && forall i | 0 <= i < |snacks| :: snacks[i].count > 0
  }

  lemma BumpAllSnoc(init: seq<SnackItem>, s: SnackItem, id: nat, delta: int)
    ensures BumpAll(init + [s], id, delta) == BumpAll(init, id, delta) + [Bump(s, id, delta)]
  {
  }

  /**
   * Changing one snack's count leaves every other snack as it was and where it was: among the
   * snacks with other ids, the update only drops those without a positive count (none, when
   * all counts are positive, as in the form).
   */
  lemma {:induction false} UpdateKeepsOthers(snacks: seq<SnackItem>, id: nat, delta: int)
    ensures OtherIds(UpdateCounts(snacks, id, delta), id) == Positive(OtherIds(snacks, id))
    decreases |snacks|
  {
    if snacks != [] {
      var init, s := snacks[..|snacks| - 1], snacks[|snacks| - 1];
      assert snacks == init + [s];
      BumpAllSnoc(init, s, id, delta);
      var b := BumpAll(snacks, id, delta);
      assert b[..|b| - 1] == BumpAll(init, id, delta);
      UpdateKeepsOthers(init, id, delta);
      var u := UpdateCounts(init, id, delta);
      var bs := Bump(s, id, delta);
      if bs.count > 0 {
        assert UpdateCounts(snacks, id, delta) == u + [bs];
        assert (u + [bs])[..|u|] == u;
      } else {
        assert UpdateCounts(snacks, id, delta) == u;
      }
      var o := OtherIds(init, id);
      if s.id != id {
        assert OtherIds(snacks, id) == o + [s];
        assert (o + [s])[..|o|] == o;
      }
    }
  }

  /** With all counts positive, the filter keeps everything. */
  lemma {:induction false} PositiveOfPositive(snacks: seq<SnackItem>)
    requires forall i | 0 <= i < |snacks| :: snacks[i].count > 0
    ensures Positive(snacks) == snacks
    decreases |snacks|
  {
    if snacks != [] {
      var init, s := snacks[..|snacks| - 1], snacks[|snacks| - 1];
      forall i | 0 <= i < |init| ensures init[i].count > 0 {
        assert init[i] == snacks[i];
      }
      PositiveOfPositive(init);
      assert s.count > 0;
      assert Positive(snacks) == Positive(init) + [s];
      assert snacks == init + [s];
    }
  }

  /** Items with a zero count add nothing, so the filter keeps the total. */
  lemma {:induction false} PositiveKeepsTotal(snacks: seq<SnackItem>)
    ensures SumCounts(Positive(snacks)) == SumCounts(snacks)
    decreases |snacks|
  {
    if snacks != [] {
      var init, s := snacks[..|snacks| - 1], snacks[|snacks| - 1];
      PositiveKeepsTotal(init);
      if s.count > 0 {
        var p := Positive(init);
        assert (p + [s])[..|p|] == p;
      }
    }
  }

  /** How much the update changes the counts of the items that carry `id`, added up. */
  function CountChange(snacks: seq<SnackItem>, id: nat, delta: int): int
    decreases |snacks|
  {
    if snacks == [] then 0
    else
      var s := snacks[|snacks| - 1];
      CountChange(snacks[..|snacks| - 1], id, delta) + (if s.id == id then Max0(s.count + delta) - s.count else 0)
  }

  /** The update moves the total by exactly the change of the items that carry `id`. */
  lemma {:induction false} UpdateTotal(snacks: seq<SnackItem>, id: nat, delta: int)
    ensures SumCounts(UpdateCounts(snacks, id, delta)) == SumCounts(snacks) + CountChange(snacks, id, delta)
  {
    BumpTotal(snacks, id, delta);
    PositiveKeepsTotal(BumpAll(snacks, id, delta));
  }

  lemma {:induction false} BumpTotal(snacks: seq<SnackItem>, id: nat, delta: int)
    ensures SumCounts(BumpAll(snacks, id, delta)) == SumCounts(snacks) + CountChange(snacks, id, delta)
    decreases |snacks|
  {
    if snacks != [] {
      var init, s := snacks[..|snacks| - 1], snacks[|snacks| - 1];
      assert snacks == init + [s];
      BumpAllSnoc(init, s, id, delta);
      var b := BumpAll(snacks, id, delta);
      assert b[..|b| - 1] == BumpAll(init, id, delta);
      BumpTotal(init, id, delta);
    }
  }

  /**
   * When only the item at `k` carries `id`, the change is that item's: from its count `c` to
   * `max(0, c + delta)`. With no item carrying `id` there is no change.
   */
  lemma {:induction false} CountChangeOfOne(snacks: seq<SnackItem>, id: nat, delta: int, k: nat)
    requires k < |snacks| && snacks[k].id == id
    requires forall j | 0 <= j < |snacks| && j != k :: snacks[j].id != id
    ensures CountChange(snacks, id, delta) == Max0(snacks[k].count + delta) - snacks[k].count
    decreases |snacks|
  {
    var init := snacks[..|snacks| - 1];
    if k < |snacks| - 1 {
      CountChangeOfOne(init, id, delta, k);
    } else {
      CountChangeOfNone(init, id, delta);
    }
  }

  lemma {:induction false} CountChangeOfNone(snacks: seq<SnackItem>, id: nat, delta: int)
    requires forall j | 0 <= j < |snacks| :: snacks[j].id != id
    ensures CountChange(snacks, id, delta) == 0
    decreases |snacks|
  {
    if snacks != [] {
      CountChangeOfNone(snacks[..|snacks| - 1], id, delta);
    }
  }

  /**
   * The item with `id` after the update: still there with count `c + delta` when that is
   * positive, gone otherwise; nothing else carries `id`.
   */
  lemma UpdateMatching(snacks: seq<SnackItem>, id: nat, delta: int, k: nat)
    requires k < |snacks| && snacks[k].id == id
    requires forall j | 0 <= j < |snacks| && j != k :: snacks[j].id != id
    ensures var r := UpdateCounts(snacks, id, delta);
      && (snacks[k].count + delta > 0 ==> snacks[k].(count := snacks[k].count + delta) in r)
      && (forall s | s in r && s.id == id :: s == snacks[k].(count := snacks[k].count + delta) && s.count > 0)
  {
    var b := BumpAll(snacks, id, delta);
    assert b[k] == Bump(snacks[k], id, delta);
    forall s | s in b && s.id == id ensures s == b[k] {
      var j :| 0 <= j < |b| && b[j] == s;
    }
  }

  class DiaryForm {
    var imageUrl: Option<string>
    var play: PlayRecord
    var nutrition: Nutrition
    var milestone: string
    var discipline: DisciplineRecord
    var newSnackName: string
    var selectedMeal: string
    var selectedRelative: string
    /** Stands for `Date.now()`: the next snack id to hand out. */
    var nextSnackId: nat

    /** The pickers hold one of their options, and the snack list is well formed. */
    predicate Valid()
      reads this
    {
      selectedMeal in Meals && selectedRelative in Relatives && SnacksWellFormed(nutrition.snacks, nextSnackId)
    }

    /**
     * A fresh form: no photo, empty texts, every meal fully eaten, no grams, no snacks, no
     * scolding with an empty behaviour, and the picker on breakfast-after.
     */
    constructor ()
      ensures Valid()
      ensures imageUrl.None? && play == PlayRecord("", "", "") && milestone == ""
      ensures nutrition == Nutrition("", Some(100), "", Some(100), "", Some(100), None, None, None, [])
      ensures discipline == DisciplineRecord(0, "", Some(""))
      ensures newSnackName == "" && selectedMeal == "아침" && selectedRelative == "후"
    {
      imageUrl := None;
      play := PlayRecord("", "", "");
      nutrition := Nutrition("", Some(100), "", Some(100), "", Some(100), None, None, None, []);
      milestone := "";
      discipline := DisciplineRecord(0, "", Some(""));
      newSnackName := "";
      selectedMeal := "아침";
      selectedRelative := "후";
      nextSnackId := 0;
    }

    /**
     * `totalSnacks`: the snack counts added up. In a well-formed list every row counts at least
     * once, so the total is at least the number of rows and is 0 only for an empty list.
     */
    function TotalSnacks(): (r: nat)
      reads this
      ensures SnacksWellFormed(nutrition.snacks, nextSnackId) ==> r >= |nutrition.snacks|
      ensures SnacksWellFormed(nutrition.snacks, nextSnackId) ==> (r == 0 <==> nutrition.snacks == [])
    {
      var total := SumCounts(nutrition.snacks);
      assert SnacksWellFormed(nutrition.snacks, nextSnackId) ==> total >= |nutrition.snacks| by {
        if SnacksWellFormed(nutrition.snacks, nextSnackId) {
          SumCountsAtLeastLength(nutrition.snacks);
        }
      }
      total
    }

    /**
     * The over-snacking warning next to the snack list: shown exactly when the counts add up to
     * 3 or more, so any three snack rows bring it up, and an empty list never does.
     */
    function OverSnackWarning(): (w: bool)
      reads this
      ensures w <==> SumCounts(nutrition.snacks) >= 3
      ensures SnacksWellFormed(nutrition.snacks, nextSnackId) && |nutrition.snacks| >= 3 ==> w
      ensures nutrition.snacks == [] ==> !w
    {
      TotalSnacks() >= 3
    }

    /** The snack name input. */
    method SetSnackName(name: string)
      modifies this
      ensures newSnackName == name
      ensures && imageUrl == old(imageUrl) && play == old(play) && nutrition == old(nutrition)
              && milestone == old(milestone) && discipline == old(discipline)
              && selectedMeal == old(selectedMeal) && selectedRelative == old(selectedRelative)
              && nextSnackId == old(nextSnackId)
    {
      newSnackName := name;
    }

    /** A meal button of the snack picker. */
    method SelectMeal(meal: string)
      requires Valid() && meal in Meals
      modifies this
      ensures Valid() && selectedMeal == meal
      ensures && imageUrl == old(imageUrl) && play == old(play) && nutrition == old(nutrition)
              && milestone == old(milestone) && discipline == old(discipline)
              && newSnackName == old(newSnackName) && selectedRelative == old(selectedRelative)
              && nextSnackId == old(nextSnackId)
    {
      selectedMeal := meal;
    }

    /** A before/after button of the snack picker. */
    method SelectRelative(rel: string)
      requires Valid() && rel in Relatives
      modifies this
      ensures Valid() && selectedRelative == rel
      ensures && imageUrl == old(imageUrl) && play == old(play) && nutrition == old(nutrition)
              && milestone == old(milestone) && discipline == old(discipline)
              && newSnackName == old(newSnackName) && selectedMeal == old(selectedMeal)
              && nextSnackId == old(nextSnackId)
    {
      selectedRelative := rel;
    }

    /**
     * `addSnack`: a blank or white-space name changes nothing. Otherwise one snack with the
     * trimmed name, count 1 and the picked timing is appended, the total grows by 1 and the
     * name input is cleared.
     */
    method AddSnack()
      requires Valid()
      modifies this
      ensures Valid()
      ensures Trim(old(newSnackName)) == "" ==>
        nutrition == old(nutrition) && newSnackName == old(newSnackName) && nextSnackId == old(nextSnackId)
      ensures Trim(old(newSnackName)) != "" ==>
        nutrition == WithSnack(old(nutrition), SnackItem(old(nextSnackId), Trim(old(newSnackName)), 1, Timing(selectedMeal, selectedRelative)))
      ensures Trim(old(newSnackName)) != "" ==> TotalSnacks() == old(TotalSnacks()) + 1
      ensures Trim(old(newSnackName)) != "" ==> newSnackName == "" && nextSnackId == old(nextSnackId) + 1
      ensures && imageUrl == old(imageUrl) && play == old(play) && milestone == old(milestone)
              && discipline == old(discipline)
              && selectedMeal == old(selectedMeal) && selectedRelative == old(selectedRelative)
    {
      var name := Trim(newSnackName);
      if name == "" {
        return;
      }
      AddedSnackFacts(nutrition.snacks, nextSnackId, name, selectedMeal, selectedRelative);
      nutrition := WithSnack(nutrition, SnackItem(nextSnackId, name, 1, Timing(selectedMeal, selectedRelative)));
      newSnackName := "";
      nextSnackId := nextSnackId + 1;
    }

    /**
     * `updateSnackCount(id, delta)`: the snack with `id` gets count `max(0, count + delta)`
     * and leaves the list when that is 0; every other snack stays as it was, in its place. The
     * total moves by exactly that snack's change.
     */
    method UpdateSnackCount(id: nat, delta: int)
      requires Valid()
      modifies this
      ensures Valid()
      ensures nutrition == old(nutrition).(snacks := UpdateCounts(old(nutrition.snacks), id, delta))
      ensures OtherIds(nutrition.snacks, id) == OtherIds(old(nutrition.snacks), id)
      ensures TotalSnacks() == old(TotalSnacks()) + CountChange(old(nutrition.snacks), id, delta)
      ensures && imageUrl == old(imageUrl) && play == old(play) && milestone == old(milestone)
              && discipline == old(discipline) && newSnackName == old(newSnackName)
              && selectedMeal == old(selectedMeal) && selectedRelative == old(selectedRelative)
              && nextSnackId == old(nextSnackId)
    {
      var snacks := nutrition.snacks;
      var updated := UpdateCounts(snacks, id, delta);
      assert OtherIds(updated, id) == OtherIds(snacks, id) by {
        UpdateKeepsOthers(snacks, id, delta);
        PositiveOfPositive(OtherIds(snacks, id));
      }
      assert SnacksWellFormed(updated, nextSnackId) by {
        UpdateStaysWellFormed(snacks, id, delta, nextSnackId);
      }
      UpdateTotal(snacks, id, delta);
      nutrition := nutrition.(snacks := updated);
    }

    /** The minus button of the scolding counter: one less, never below 0. */
    method DecrementDiscipline()
      modifies this
      ensures discipline == old(discipline).(count := Max0(old(discipline.count) - 1))
      ensures old(discipline.count) > 0 ==> discipline.count == old(discipline.count) - 1
      ensures old(discipline.count) == 0 ==> discipline.count == 0
      ensures && imageUrl == old(imageUrl) && play == old(play) && nutrition == old(nutrition)
              && milestone == old(milestone) && newSnackName == old(newSnackName)
              && selectedMeal == old(selectedMeal) && selectedRelative == old(selectedRelative)
              && nextSnackId == old(nextSnackId)
    {
      discipline := discipline.(count := Max0(discipline.count - 1));
    }

    /** The plus button of the scolding counter: exactly one more. */
    method IncrementDiscipline()
      modifies this
      ensures discipline == old(discipline).(count := old(discipline.count) + 1)
      ensures && imageUrl == old(imageUrl) && play == old(play) && nutrition == old(nutrition)
              && milestone == old(milestone) && newSnackName == old(newSnackName)
              && selectedMeal == old(selectedMeal) && selectedRelative == old(selectedRelative)
              && nextSnackId == old(nextSnackId)
    {
      discipline := discipline.(count := discipline.count + 1);
    }

    /**
     * `handleSubmit`: the record as filled in is handed over, then the form is cleared to
     * empty texts, full meals, no grams and no snacks, and a scolding count of 0 with an empty
     * situation and no behaviour field. The snack name and the pickers are not reset.
     */
    method Submit() returns (draft: EntryDraft)
      requires Valid()
      modifies this
      ensures Valid()
      ensures draft == EntryDraft(old(imageUrl), old(play), old(nutrition), old(milestone), old(discipline))
      ensures imageUrl.None? && play == PlayRecord("", "", "") && milestone == ""
      ensures nutrition == Nutrition("", Some(100), "", Some(100), "", Some(100), None, None, None, [])
      ensures discipline == DisciplineRecord(0, "", None)
      ensures newSnackName == old(newSnackName) && selectedMeal == old(selectedMeal)
              && selectedRelative == old(selectedRelative) && nextSnackId == old(nextSnackId)
    {
      draft := EntryDraft(imageUrl, play, nutrition, milestone, discipline);
      imageUrl := None;
      play := PlayRecord("", "", "");
      nutrition := Nutrition("", Some(100), "", Some(100), "", Some(100), None, None, None, []);
      milestone := "";
      discipline := DisciplineRecord(0, "", None);
    }
  }

  /** An item appended after a list with fields in order has an id none of the list's items has. */
  lemma LastIdIsFresh(init: seq<SnackItem>, s: SnackItem, next: nat)
    requires SnackFields(init + [s], next)
    ensures forall x | x in init :: x.id != s.id
  {
    var snacks := init + [s];
    forall x | x in init ensures x.id != s.id {
      var m :| 0 <= m < |init| && init[m] == x;
      assert snacks[m] == x && snacks[|init|] == s;
    }
  }

  /** Appending an item with a chip timing and a fresh id below `next` keeps the fields in order. */
  lemma SnocKeepsFields(p: seq<SnackItem>, s: SnackItem, next: nat)
    requires SnackFields(p, next) && s.timing in AllTimings && s.id < next
    requires forall x | x in p :: x.id != s.id
    ensures SnackFields(p + [s], next)
  {
    var r := p + [s];
    assert forall i | 0 <= i < |p| :: r[i] == p[i] && r[i] in p;
  }

  /** Filtering keeps chip timings and distinct ids. */
  lemma {:induction false} PositiveKeepsFields(snacks: seq<SnackItem>, next: nat)
    requires SnackFields(snacks, next)
    ensures SnackFields(Positive(snacks), next)
    decreases |snacks|
  {
    if snacks != [] {
      var init, s := snacks[..|snacks| - 1], snacks[|snacks| - 1];
      assert snacks == init + [s];
      assert SnackFields(init, next);
      PositiveKeepsFields(init, next);
      if s.count > 0 {
        LastIdIsFresh(init, s, next);
        SnocKeepsFields(Positive(init), s, next);
      }
    }
  }

  /** The update keeps the snack list well formed: it only changes counts and drops items. */
  lemma UpdateStaysWellFormed(snacks: seq<SnackItem>, id: nat, delta: int, next: nat)
    requires SnacksWellFormed(snacks, next)
    ensures SnacksWellFormed(UpdateCounts(snacks, id, delta), next)
  {
    var b := BumpAll(snacks, id, delta);
    assert forall i | 0 <= i < |b| :: b[i].id == snacks[i].id && b[i].timing == snacks[i].timing;
    PositiveKeepsFields(b, next);
  }

  /** Appending a fresh snack with a chip timing and a positive count keeps the list well formed. */
  lemma AppendStaysWellFormed(snacks: seq<SnackItem>, snack: SnackItem, next: nat)
    requires SnacksWellFormed(snacks, next)
    requires snack.id == next && snack.count > 0 && snack.timing in AllTimings
    ensures SnacksWellFormed(snacks + [snack], next + 1)
  {
  }

  /** The nutrition record with `item` added at the end of its snack list. */
  function WithSnack(n: Nutrition, item: SnackItem): Nutrition {
    n.(snacks := n.snacks + [item])
  }

  /** The snack `addSnack` appends keeps the list well formed and adds 1 to the total. */
  lemma AddedSnackFacts(snacks: seq<SnackItem>, next: nat, name: string, meal: string, rel: string)
    requires SnacksWellFormed(snacks, next) && meal in Meals && rel in Relatives
    ensures var r := snacks + [SnackItem(next, name, 1, Timing(meal, rel))];
      SnacksWellFormed(r, next + 1) && SumCounts(r) == SumCounts(snacks) + 1
  {
    var snack := SnackItem(next, name, 1, Timing(meal, rel));
    TimingIsChip(meal, rel);
    AppendStaysWellFormed(snacks, snack, next);
    AppendTotal(snacks, snack);
  }

  /** Adding one snack of count 1 adds 1 to the total. */
  lemma AppendTotal(snacks: seq<SnackItem>, snack: SnackItem)
    requires snack.count == 1
    ensures SumCounts(snacks + [snack]) == SumCounts(snacks) + 1
  {
    assert (snacks + [snack])[..|snacks|] == snacks;
  }
}
