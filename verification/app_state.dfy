/**
 * The state of the diary application (App.tsx): the child's age and gender, the caregiver's
 * trait checklist, the saved entries (newest first) and the guide shown for them.
 */
module App {
  import opened Wrappers
  import opened Text
  import opened Types
  import opened AgeBuckets
  import opened GuideEngine
  import opened GuideProperties
  import opened AutoInsights

  /** `latestEntry`: the first entry, the newest one, or nothing in an empty diary. */
  function Latest(entries: seq<DiaryEntry>): (r: Option<DiaryEntry>)
    ensures r.None? <==> |entries| == 0
    ensures r.Some? ==> r.value == entries[0] && r.value in entries
  {
    if |entries| > 0 then Some(entries[0]) else None
  }

  /** The traits the guide is built from: the checklist merged with what the newest entry shows. */
  function EffectiveFor(traits: ChildTraits, entries: seq<DiaryEntry>): ChildTraits {
    EffectiveTraits(traits, BuildAutoInsights(Latest(entries)))
  }

  /** The guide for an age, a checklist and a diary, as the fetch effect requests it. */
  function GuideOf(months: nat, traits: ChildTraits, entries: seq<DiaryEntry>): GuideData {
    ComposeGuide(Num(months as real), EffectiveFor(traits, entries), Latest(entries))
  }

  /** The entry `handleSaveEntry` builds from the form's draft: the draft stamped with id, date, age and gender. */
  function Stamp(draft: EntryDraft, id: nat, date: string, months: nat, gender: Gender): (e: DiaryEntry)
    ensures e.id == id && e.date == date && e.months == months && e.gender == gender
    ensures && e.imageUrl == draft.imageUrl && e.play == draft.play && e.nutrition == draft.nutrition
            && e.milestone == draft.milestone && e.discipline == draft.discipline
  {
    DiaryEntry(id, date, months, gender, draft.imageUrl, draft.play, draft.nutrition, draft.milestone, draft.discipline)
  }

  /** No two entries share an id, and every id was handed out before `next`. */
  predicate IdsBelow(entries: seq<DiaryEntry>, next: nat) {
    && (forall i | 0 <= i < |entries| :: entries[i].id < next)
    && (forall i, j | 0 <= i < j < |entries| :: entries[i].id != entries[j].id)
  }

  /**
   * Only the newest entry reaches the guide: a diary that starts with `e` asks for the guide
   * with `e` as the latest entry and with traits merged from `e` alone, whatever older
   * entries it holds.
   */
  lemma NewestEntryDecides(traits: ChildTraits, e: DiaryEntry, older: seq<DiaryEntry>)
    ensures Latest([e] + older) == Some(e)
    ensures EffectiveFor(traits, [e] + older) == EffectiveTraits(traits, BuildAutoInsights(Some(e)))
  {
  }

  /**
   * The effect that runs `fetchGuide(months, effectiveTraits)` whenever the age, the effective
   * traits or the latest entry change: it hands the engine the current age, the checklist
   * merged with the newest entry, and that entry.
   */
  method FetchGuide(months: nat, traits: ChildTraits, entries: seq<DiaryEntry>) returns (g: GuideData)
    ensures g == GuideOf(months, traits, entries)
  {
    var latest := Latest(entries);
    g := RuleBasedDevelopmentGuide(Num(months as real), EffectiveTraits(traits, BuildAutoInsights(latest)), latest);
  }

  /**
   * The guide always has play, education and nutrition text, and it has a discipline section
   * exactly when the caregiver opted in, the diary is not empty and the newest entry records
   * a scolding, a behaviour or a situation.
   */
  lemma GuideOfSections(months: nat, traits: ChildTraits, entries: seq<DiaryEntry>)
    ensures var g := GuideOf(months, traits, entries);
      && g.play != "" && g.education != "" && g.nutrition != ""
      && (g.discipline.Some? <==>
            traits.useAutoInsights && |entries| > 0
            && (|| entries[0].discipline.count >= 1
                || Trim(entries[0].discipline.behavior.GetOr("")) != ""
                || Trim(entries[0].discipline.situation) != ""))
  {
    var months' := Num(months as real);
    var b, t, latest := BaseBucket(months'), EffectiveFor(traits, entries), Latest(entries);
    BucketTexts(b);
    GuideTextsNonEmpty(b, ClampMonths(months'), t, latest);
    DisciplinePresence(b, ClampMonths(months'), t, latest);
  }

  class DiaryApp {
    var months: nat
    var gender: Gender
    var traits: ChildTraits
    /** Newest first. */
    var entries: seq<DiaryEntry>
    var guide: Option<GuideData>
    var loadingGuide: bool
    /** Stands for the random ids: the next one to hand out. */
    var nextId: nat

    predicate Valid()
      reads this
    {
      IdsBelow(entries, nextId)
    }

    /** A fresh application: 12 months, a girl, the default checklist (opted in), no entries, no guide. */
    constructor ()
      ensures Valid()
      ensures months == 12 && gender == Girl
      ensures traits == ChildTraits(PickyNone, SleepNone, false, false, false, false, true)
      ensures entries == [] && guide.None? && !loadingGuide
    {
      months := 12;
      gender := Girl;
      traits := ChildTraits(PickyNone, SleepNone, false, false, false, false, true);
      entries := [];
      guide := None;
      loadingGuide := false;
      nextId := 0;
    }

    /** `latestEntry`. */
    function LatestEntry(): (r: Option<DiaryEntry>)
      reads this
      ensures r == Latest(entries)
    {
      Latest(entries)
    }

    /**
     * `handleSaveEntry`: the stamped entry goes in front and becomes the latest entry; the
     * older entries follow in their order; its id differs from every older one.
     */
    method SaveEntry(draft: EntryDraft, date: string)
      requires Valid()
      modifies this
      ensures Valid()
      ensures entries == [Stamp(draft, old(nextId), date, months, gender)] + old(entries)
      ensures LatestEntry() == Some(entries[0]) && entries[1..] == old(entries)
      ensures forall i | 1 <= i < |entries| :: entries[i].id != entries[0].id
      ensures nextId == old(nextId) + 1
      ensures months == old(months) && gender == old(gender) && traits == old(traits)
      ensures guide == old(guide) && loadingGuide == old(loadingGuide)
    {
      var entry := Stamp(draft, nextId, date, months, gender);
      entries := [entry] + entries;
      nextId := nextId + 1;
    }

    /** The age input: whole months, never negative. */
    method SetMonths(m: nat)
      modifies this
      ensures months == m
      ensures gender == old(gender) && traits == old(traits) && entries == old(entries)
      ensures guide == old(guide) && loadingGuide == old(loadingGuide) && nextId == old(nextId)
    {
      months := m;
    }

    /** The gender toggle. */
    method SetGender(g: Gender)
      modifies this
      ensures gender == g
      ensures months == old(months) && traits == old(traits) && entries == old(entries)
      ensures guide == old(guide) && loadingGuide == old(loadingGuide) && nextId == old(nextId)
    {
      gender := g;
    }

    /** The trait form hands over a new checklist. */
    method SetTraits(t: ChildTraits)
      modifies this
      ensures traits == t
      ensures months == old(months) && gender == old(gender) && entries == old(entries)
      ensures guide == old(guide) && loadingGuide == old(loadingGuide) && nextId == old(nextId)
    {
      traits := t;
    }

    /** `fetchGuide` starts: the loading placeholder replaces the guide. */
    method BeginFetch()
      modifies this
      ensures loadingGuide
      ensures months == old(months) && gender == old(gender) && traits == old(traits)
      ensures entries == old(entries) && guide == old(guide) && nextId == old(nextId)
    {
      loadingGuide := true;
    }

    /** `fetchGuide` ends: the engine's guide is shown and loading is over. */
    method ShowGuide(data: GuideData)
      modifies this
      ensures guide == Some(data) && !loadingGuide
      ensures months == old(months) && gender == old(gender) && traits == old(traits)
      ensures entries == old(entries) && nextId == old(nextId)
    {
      guide := Some(data);
      loadingGuide := false;
    }
  }
}
