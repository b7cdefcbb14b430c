/** The quality menu: the trigger's label, the rows with their labels and
    selection marks, and what choosing a row does. */
module QualitySelector {
  import opened Common
  import opened QualityLadder
  import VideoSession

  /** `qualityLevels.find(level => level.index === idx)`. */
  function FindByIndex(levels: seq<QualityLevel>, idx: int): (r: Option<QualityLevel>)
    ensures r.Some? ==> r.value in levels && r.value.index == idx
    ensures r.None? <==> forall l :: l in levels ==> l.index != idx
    ensures r.Some? ==> exists k :: 0 <= k < |levels| && levels[k] == r.value
                                    && forall j :: 0 <= j < k ==> levels[j].index != idx
  {
    if levels == [] then None
    else if levels[0].index == idx then Some(levels[0])
    else
      var r := FindByIndex(levels[1..], idx);
      assert r.Some? ==> r.value in levels;
      assert forall l :: l in levels[1..] ==> l in levels;
      assert forall l :: l in levels ==> l == levels[0] || l in levels[1..];
      r
  }

  /** "Auto (L)" for the level whose index is the current one, or "Auto". */
  function AutoLabel(levels: seq<QualityLevel>, current: int): (r: string)
    ensures |r| >= 4 && r[..4] == "Auto"
    ensures r == "Auto" <==> FindByIndex(levels, current).None?
    ensures FindByIndex(levels, current).Some? ==> r == "Auto (" + FindByIndex(levels, current).value.text + ")"
  {
    var found := FindByIndex(levels, current);
    if found.Some? then "Auto (" + found.value.text + ")" else "Auto"
  }

  /** `getCurrentLabel`: in auto mode the Auto label; in manual mode the
      current level's label, or "Auto" when it is missing or empty. */
  function CurrentLabel(levels: seq<QualityLevel>, current: int, auto: bool): (r: string)
    ensures auto && FindByIndex(levels, current).Some? ==>
      r == "Auto (" + FindByIndex(levels, current).value.text + ")"
    ensures auto && FindByIndex(levels, current).None? ==> r == "Auto"
    ensures !auto && FindByIndex(levels, current).Some? && FindByIndex(levels, current).value.text != "" ==>
      r == FindByIndex(levels, current).value.text
    ensures !auto && (FindByIndex(levels, current).None? || FindByIndex(levels, current).value.text == "") ==>
      r == "Auto"
  {
    if auto then AutoLabel(levels, current)
    else
      var found := FindByIndex(levels, current);
      if found.Some? && found.value.text != "" then found.value.text else "Auto"
  }

  /** One row of the open menu. */
  datatype Entry = Entry(index: int, text: string, selected: bool)

  /** What the component renders: the trigger's title and the rows. */
  datatype Menu = Menu(title: string, entries: seq<Entry>)

  /** The row built for `level`: the Auto row (index -1) shows the Auto label
      in auto mode, so it reads like the trigger, and plain "Auto" otherwise;
      other rows show their label. A row is selected when (auto mode and it
      is the Auto row) or (manual mode and it is the current level). */
  function EntryFor(levels: seq<QualityLevel>, level: QualityLevel, current: int, auto: bool): (e: Entry)
    ensures e.index == level.index
    ensures e.selected <==> (auto && level.index == -1) || (!auto && level.index == current)
    ensures level.index != -1 ==> e.text == level.text
    ensures level.index == -1 && !auto ==> e.text == "Auto"
    ensures level.index == -1 && auto ==> e.text == CurrentLabel(levels, current, true)
  {
    var text := if level.index == -1 && auto then AutoLabel(levels, current)
                else if level.index == -1 then "Auto"
                else level.text;
    var selected := if auto then level.index == -1 else level.index == current;
    Entry(level.index, text, selected)
  }

  /** The component: nothing for an empty ladder, otherwise the trigger
      title "Quality: <current label>" and one row per level, in order. */
  function Render(levels: seq<QualityLevel>, current: int, auto: bool): (m: Option<Menu>)
    ensures m.None? <==> levels == []
    ensures m.Some? ==> |m.value.entries| == |levels|
    ensures m.Some? ==> forall k :: 0 <= k < |levels| ==>
      m.value.entries[k] == EntryFor(levels, levels[k], current, auto)
  {
    if levels == [] then None
    else
      Some(Menu("Quality: " + CurrentLabel(levels, current, auto),
                seq(|levels|, k requires 0 <= k < |levels| => EntryFor(levels, levels[k], current, auto))))
  }

  /** Choosing a row: `onLevelChange` receives the row's index and the menu closes. */
  datatype Choice = Choice(levelIndex: int, open: bool)

  function Choose(e: Entry): (c: Choice)
    ensures c.levelIndex == e.index && !c.open
  {
    Choice(e.index, false)
  }

  // ---------------------------------------------------------------------
  // Properties

  /** In auto mode the Auto row reads exactly like the trigger's label. */
  lemma {:induction false} AutoRowMatchesTrigger(levels: seq<QualityLevel>, current: int)
    requires levels != []
    ensures forall k :: 0 <= k < |levels| && levels[k].index == -1 ==>
      "Quality: " + Render(levels, current, true).value.entries[k].text == Render(levels, current, true).value.title
  {
  }

  /** On a ladder the session stores (Auto first when there are several
      levels), auto mode marks exactly one row, the first. */
  lemma {:induction false} OneSelectedOnShapedLadder(levels: seq<QualityLevel>, current: int)
    requires VideoSession.WellShaped(levels) && |levels| > 1
    ensures forall k :: 0 <= k < |levels| ==>
      (Render(levels, current, true).value.entries[k].selected <==> k == 0)
  {
    forall k | 0 <= k < |levels|
      ensures Render(levels, current, true).value.entries[k].selected <==> k == 0
    {
      if k > 0 {
        assert levels[k].index >= 0;
      }
    }
  }

  /** Pinning a level of the ladder through the session, then rendering,
      marks that level's row as selected and shows its label on the trigger. */
  lemma {:induction false} PinnedLevelIsShown(q: VideoSession.QualityState, k: int, reps: seq<Rep>,
                                              active: Option<int>, p: nat)
    requires p < |q.levels| && q.levels[p].index == k && k != -1
    requires forall j :: 0 <= j < p ==> q.levels[j].index != k
    requires q.levels[p].text != ""
    ensures var r := VideoSession.AfterSelect(q, k, reps, active);
      && Render(r.levels, r.current, r.auto).value.entries[p].selected
      && Render(r.levels, r.current, r.auto).value.title == "Quality: " + q.levels[p].text
  {
    var r := VideoSession.AfterSelect(q, k, reps, active);
    assert r.levels == q.levels && r.current == k && !r.auto;
    var f := FindByIndex(q.levels, k);
    assert f.Some?;
    var w :| 0 <= w < |q.levels| && q.levels[w] == f.value
             && forall j :: 0 <= j < w ==> q.levels[j].index != k;
    assert w == p;
  }
}
