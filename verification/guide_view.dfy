/**
 * The guide card (components/MonthlyGuideSection.tsx): a loading placeholder, or the three
 * sections and, when there is one, the discipline block, each text shown as a list of lines.
 */
module GuideView {
  import opened Wrappers
  import opened Text
  import opened Types
  import opened Dedup
  import opened AgeBuckets
  import opened GuideEngine
  import opened GuideProperties

  /**
   * `line.replace(/^•\s?/, '')`: a leading bullet and at most one white-space character right
   * after it are removed; a line that does not start with a bullet is left as it is.
   */
  function StripBullet(line: string): (r: string)
    ensures |r| <= |line| && r == line[|line| - |r|..]
    ensures |r| < |line| <==> line != "" && line[0] == '•'
    ensures |line| - |r| == 2 <==> |line| >= 2 && line[0] == '•' && IsSpace(line[1])
    ensures |line| - |r| <= 2
  {
    if line != "" && line[0] == '•' then
      if |line| >= 2 && IsSpace(line[1]) then line[2..] else line[1..]
    else line
  }

  function StripAll(lines: seq<string>): seq<string> {
    seq(|lines|, i requires 0 <= i < |lines| => StripBullet(lines[i]))
  }

  /** Trimming cuts a slice out of the text, so it brings in no line feed. */
  lemma NoNewlineAfterTrim(s: string)
    requires '\n' !in s
    ensures '\n' !in Trim(s)
  {
    TrimSlice(s);
    var i :| IsSpacedSlice(s, Trim(s), i);
    forall k | 0 <= k < |Trim(s)| ensures Trim(s)[k] != '\n' {
      assert Trim(s)[k] == s[i + k];
    }
  }

  /**
   * `text.split('\n').map((line) => line.trim()).filter(Boolean)`: the trimmed pieces between
   * line feeds that are not empty, in their order; none of them holds a line feed.
   */
  function ShownLines(text: string): (r: seq<string>)
    ensures forall i | 0 <= i < |r| :: r[i] != "" && IsTrimmed(r[i]) && '\n' !in r[i]
  {
    var trimmed := TrimAll(SplitLines(text));
    TrimmedPiecesClean(SplitLines(text));
    var r := NonBlank(trimmed);
    assert forall i | 0 <= i < |r| :: r[i] in r;
    r
  }

  /** Some piece of `text` between line feeds trims to `x`. */
  predicate TrimsFromPiece(text: string, x: string) {
    exists i | 0 <= i < |SplitLines(text)| :: Trim(SplitLines(text)[i]) == x
  }

  /** A line is shown exactly when it is not empty and some piece of the text trims to it. */
  lemma ShownLinesMembers(text: string, x: string)
    ensures x in ShownLines(text) <==> x != "" && TrimsFromPiece(text, x)
  {
    var pieces := SplitLines(text);
    var t := TrimAll(pieces);
    assert ShownLines(text) == NonBlank(t);
    if x in t {
      var j :| 0 <= j < |t| && t[j] == x;
      assert Trim(pieces[j]) == x;
    }
    if TrimsFromPiece(text, x) {
      var j :| 0 <= j < |pieces| && Trim(pieces[j]) == x;
      assert t[j] == x;
    }
  }

  /** Trimming pieces that hold no line feed gives trimmed pieces that hold none. */
  lemma TrimmedPiecesClean(pieces: seq<string>)
    requires forall j | 0 <= j < |pieces| :: '\n' !in pieces[j]
    ensures forall x | x in TrimAll(pieces) :: IsTrimmed(x) && '\n' !in x
  {
    var trimmed := TrimAll(pieces);
    forall x | x in trimmed ensures IsTrimmed(x) && '\n' !in x {
      var j :| 0 <= j < |trimmed| && trimmed[j] == x;
      NoNewlineAfterTrim(pieces[j]);
    }
  }

  /**
   * `renderLines`: nothing for an absent or empty text; otherwise the shown lines with their
   * bullets stripped, one list item each.
   */
  function RenderLines(text: Option<string>): (r: Option<seq<string>>)
    ensures r.None? <==> text.None? || text.value == ""
    ensures r.Some? ==> |r.value| == |ShownLines(text.value)|
    ensures r.Some? ==> forall i | 0 <= i < |r.value| :: r.value[i] == StripBullet(ShownLines(text.value)[i])
  {
    if text.None? || text.value == "" then None
    else Some(StripAll(ShownLines(text.value)))
  }

  /**
   * Lines that are trimmed, not empty and free of line feeds come back from their join one
   * for one, each with its bullet stripped.
   */
  lemma {:induction false} RenderJoined(lines: seq<string>)
    requires |lines| > 0
    requires forall i | 0 <= i < |lines| :: lines[i] != "" && IsTrimmed(lines[i]) && '\n' !in lines[i]
    ensures ShownLines(JoinLines(lines)) == lines
    ensures RenderLines(Some(JoinLines(lines))) == Some(StripAll(lines))
  {
    SplitJoin(lines);
    forall i | 0 <= i < |lines| ensures Trim(lines[i]) == lines[i] {
      TrimmedIsFixpoint(lines[i]);
    }
    assert TrimAll(lines) == lines;
    NonBlankOfNonEmpty(lines);
    JoinedNonEmpty(lines);
  }

  /**
   * The card shows exactly the engine's de-duplicated list: a section's text, joined from
   * `uniq`'s lines, renders as those lines in their order, bullets stripped, and as nothing
   * when the list is empty; the shown lines are already free of duplicates.
   */
  lemma RenderUniq(lines: seq<string>)
    requires forall x | x in Uniq(lines) :: '\n' !in x
    ensures var u := Uniq(lines);
      && (u == [] ==> RenderLines(Some(JoinLines(u))).None?)
      && (u != [] ==> ShownLines(JoinLines(u)) == u && RenderLines(Some(JoinLines(u))) == Some(StripAll(u)))
      && Uniq(ShownLines(JoinLines(u))) == ShownLines(JoinLines(u))
  {
    var u := Uniq(lines);
    if u != [] {
      assert forall i | 0 <= i < |u| :: u[i] in u;
      RenderJoined(u);
      UniqOfClean(u);
    }
  }

  /** Text the tables provide is shown unchanged; an advice line loses its bullet and the space after it. */
  lemma StripBaseAndBullet(base: string, advice: string)
    requires IsBaseText(base)
    requires |advice| >= 2 && advice[0] == '•' && advice[1] == ' '
    ensures StripBullet(base) == base
    ensures StripBullet(advice) == advice[2..]
  {
    BaseTextIsTrimmed(base);
  }

  /** What the card shows. */
  datatype View =
    | Loading
    | Shown(play: Option<seq<string>>, education: Option<seq<string>>, nutrition: Option<seq<string>>,
            discipline: Option<seq<string>>)

  /**
   * The card: only the placeholder while loading. Otherwise the three sections render their
   * texts (nothing at all without a guide), and the discipline block appears, with its lines,
   * exactly when the guide's discipline text is present and not empty.
   */
  function RenderGuide(guide: Option<GuideData>, loading: bool): (v: View)
    ensures v.Loading? <==> loading
    ensures v.Shown? && guide.None? ==> v.play.None? && v.education.None? && v.nutrition.None?
    ensures v.Shown? && guide.Some? ==>
      && v.play == RenderLines(Some(guide.value.play))
      && v.education == RenderLines(Some(guide.value.education))
      && v.nutrition == RenderLines(Some(guide.value.nutrition))
    ensures v.Shown? ==>
      (v.discipline.Some? <==> guide.Some? && guide.value.discipline.Some? && guide.value.discipline.value != "")
    ensures v.Shown? && v.discipline.Some? ==> v.discipline == RenderLines(guide.value.discipline)
  {
    if loading then Loading
    else
      Shown(
        if guide.Some? then RenderLines(Some(guide.value.play)) else None,
        if guide.Some? then RenderLines(Some(guide.value.education)) else None,
        if guide.Some? then RenderLines(Some(guide.value.nutrition)) else None,
        if guide.Some? && guide.value.discipline.Some? && guide.value.discipline.value != ""
        then RenderLines(guide.value.discipline) else None)
  }

  /**
   * For the engine's guide the discipline block appears exactly when the caregiver opted in,
   * there is an entry, and it records a scolding, a behaviour or a situation.
   */
  lemma DisciplineBlockFollowsRecord(b: Bucket, m: nat, t: ChildTraits, latest: Option<DiaryEntry>)
    ensures var v := RenderGuide(Some(GuideFor(b, m, t, latest)), false);
      v.Shown? && (v.discipline.Some? <==>
        InsightsApply(t, latest)
        && (|| latest.value.discipline.count >= 1
            || Trim(latest.value.discipline.behavior.GetOr("")) != ""
            || Trim(latest.value.discipline.situation) != ""))
  {
    DisciplinePresence(b, m, t, latest);
  }
}
