/** The arm-then-navigate selection policy of the chart container (the
    same handlers appear in both container versions that carry
    `readyToNavigate`). A first click on a segment selects it, a second
    click on it arms navigation, and a third click, while navigation on
    double click is enabled, hands the segment to the parent. */
module ArmNavigate {
  import opened Wrappers
  import opened Events

  /** The hovered segment, the selected segment and `readyToNavigate`. */
  datatype State = State(active: Option<nat>, selected: Option<nat>, armed: bool)

  const Idle := State(None, None, false)

  /** Navigation is only ever armed for a selected segment; the tooltip
      "Click again to navigate" relies on it. */
  predicate Valid(s: State) {
    s.armed ==> s.selected.Some?
  }

  /** One handler run on the latest committed state, with
      `enableNavigationOnDoubleClick` as `navigation`. */
  function Step(s: State, e: Event, navigation: bool): (r: (State, Notice))
    ensures Valid(s) ==> Valid(r.0)
    // hovering moves the highlight and nothing else
    ensures e.Hover? ==> r == (s.(active := e.target), Silent)
    // an outside mousedown resets everything and reports null
    ensures e.OutsideDown? ==> r == (Idle, Notify(None))
    // a click on no segment clears selection and arming, keeps the hover
    ensures e == Click(None) ==> r == (State(s.active, None, false), Notify(None))
    // a segment is handed over only when the selected segment is clicked
    // while armed with navigation enabled; the selection stays, disarmed
    ensures Navigates(r.1) <==>
              e.Click? && e.target.Some? && s.selected == e.target && s.armed && navigation
    ensures Navigates(r.1) ==> r == (s.(armed := false), Notify(s.selected))
    // a repeat click that does not navigate arms, silently
    ensures e.Click? && e.target.Some? && s.selected == e.target && !(s.armed && navigation) ==>
              r == (s.(armed := true), Silent)
    // a click on another segment selects it, disarms and reports null
    ensures e.Click? && e.target.Some? && s.selected != e.target ==>
              r == (State(s.active, e.target, false), Notify(None))
  {
    match e
    case Hover(target) => (s.(active := target), Silent)
    case OutsideDown => (Idle, Notify(None))
    case Click(None) => (s.(selected := None, armed := false), Notify(None))
    case Click(Some(i)) =>
      if s.selected == Some(i) then
        if s.armed && navigation then (s.(armed := false), Notify(Some(i)))
        else (s.(armed := true), Silent)
      else
        (s.(selected := Some(i), armed := false), Notify(None))
  }

  /** The handlers run one after another over a sequence of events: the
      final state and every notice in order. */
  function Run(s: State, es: seq<Event>, navigation: bool): (r: (State, seq<Notice>))
    ensures |r.1| == |es|
    decreases |es|
  {
    if |es| == 0 then (s, [])
    else
      var step := Step(s, es[0], navigation);
      var rest := Run(step.0, es[1..], navigation);
      (rest.0, [step.1] + rest.1)
  }

  /** Every sequence of events keeps navigation armed only for a selected
      segment. */
  lemma {:induction false} RunPreservesValid(s: State, es: seq<Event>, navigation: bool)
    requires Valid(s)
    ensures Valid(Run(s, es, navigation).0)
    decreases |es|
  {
    if |es| > 0 {
      RunPreservesValid(Step(s, es[0], navigation).0, es[1..], navigation);
    }
  }

  /** With navigation on double click disabled, no sequence of events
      ever hands a segment to the parent: every notice is silence or
      null. */
  lemma {:induction false} NoNavigationWhenDisabled(s: State, es: seq<Event>)
    ensures forall k :: 0 <= k < |es| ==> !Navigates(Run(s, es, false).1[k])
    decreases |es|
  {
    if |es| > 0 {
      var t := Step(s, es[0], false).0;
      NoNavigationWhenDisabled(t, es[1..]);
      var ns := Run(s, es, false).1;
      assert ns == [Step(s, es[0], false).1] + Run(t, es[1..], false).1;
      forall k | 0 <= k < |es|
        ensures !Navigates(ns[k])
      {
        if k > 0 {
          assert ns[k] == Run(t, es[1..], false).1[k - 1];
        }
      }
    }
  }

  /** From idle, three clicks on the same segment report null (select),
      nothing (arm), and then the segment itself (navigate), leaving it
      selected and disarmed. */
  lemma ThreeClicks(i: nat)
    ensures var r := Run(Idle, [Click(Some(i)), Click(Some(i)), Click(Some(i))], true);
            r.1 == [Notify(None), Silent, Notify(Some(i))]
            && r.0 == State(None, Some(i), false)
  {
    var c := Click(Some(i));
    var s1 := State(None, Some(i), false);
    // the last click navigates, the one before arms, the first selects
    var s2 := State(None, Some(i), true);
    assert [c][1..] == [] && [c][0] == c;
    assert [Notify(Some(i))] + [] == [Notify(Some(i))];
    assert Run(s2, [c], true) == (s1, [Notify(Some(i))]);
    assert [c, c][1..] == [c];
    assert [Silent] + [Notify(Some(i))] == [Silent, Notify(Some(i))];
    assert Run(s1, [c, c], true) == (s1, [Silent, Notify(Some(i))]);
    assert [c, c, c][1..] == [c, c];
    assert [Notify(None)] + [Silent, Notify(Some(i))] == [Notify(None), Silent, Notify(Some(i))];
  }
}
