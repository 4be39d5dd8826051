/** The toggle selection policy of the plain chart container: a click on
    a segment selects it and reports it, a click on the selected segment
    deselects it, and the parent always hears the new selection. */
module ToggleSelect {
  import opened Wrappers
  import opened Events

  /** The hovered segment and the selected segment. */
  datatype State = State(active: Option<nat>, selected: Option<nat>)

  const Idle := State(None, None)

  /** One handler run on the latest committed state. */
  function Step(s: State, e: Event): (r: (State, Notice))
    // hovering moves the highlight and nothing else
    ensures e.Hover? ==> r == (s.(active := e.target), Silent)
    // an outside mousedown clears hover and selection
    ensures e.OutsideDown? ==> r == (Idle, Notify(None))
    // clicks never touch the hover, and the parent hears the new selection
    ensures e.Click? ==> r.0.active == s.active && r.1 == Notify(r.0.selected)
    ensures e == Click(None) ==> r.0.selected == None
    // clicking the selected segment deselects it; any other one is selected
    ensures e.Click? && e.target.Some? ==>
              (r.0.selected == None <==> s.selected == e.target)
    ensures e.Click? && e.target.Some? && s.selected != e.target ==> r.0.selected == e.target
  {
    match e
    case Hover(target) => (s.(active := target), Silent)
    case OutsideDown => (Idle, Notify(None))
    case Click(None) => (s.(selected := None), Notify(None))
    case Click(Some(i)) =>
      if s.selected == Some(i) then (s.(selected := None), Notify(None))
      else (s.(selected := Some(i)), Notify(Some(i)))
  }

  /** The handlers run one after another: the final state and every
      notice in order. */
  function Run(s: State, es: seq<Event>): (r: (State, seq<Notice>))
    ensures |r.1| == |es|
    decreases |es|
  {
    if |es| == 0 then (s, [])
    else
      var step := Step(s, es[0]);
      var rest := Run(step.0, es[1..]);
      (rest.0, [step.1] + rest.1)
  }

  /** The last call made to `onSegmentSelect` in a sequence of notices. */
  function LastCall(ns: seq<Notice>): Option<Option<nat>> {
    if |ns| == 0 then None
    else if ns[|ns| - 1].Notify? then Some(ns[|ns| - 1].segment)
    else LastCall(ns[..|ns| - 1])
  }

  lemma {:induction false} LastCallPrepend(n: Notice, ns: seq<Notice>)
    ensures LastCall([n] + ns) == if LastCall(ns).Some? then LastCall(ns)
                                  else if n.Notify? then Some(n.segment) else None
    decreases |ns|
  {
    if |ns| > 0 {
      assert ([n] + ns)[..|ns|] == [n] + ns[..|ns| - 1];
      LastCallPrepend(n, ns[..|ns| - 1]);
    } else {
      assert ([n] + ns)[..0] == [];
    }
  }

  /** The parent is never out of date: after any sequence of events the
      last value reported to it is the current selection, and if nothing
      was reported the selection has not changed. */
  lemma {:induction false} ParentInSync(s: State, es: seq<Event>)
    ensures var r := Run(s, es);
            LastCall(r.1) == Some(r.0.selected)
            || (LastCall(r.1) == None && r.0.selected == s.selected)
    decreases |es|
  {
    if |es| > 0 {
      var step := Step(s, es[0]);
      ParentInSync(step.0, es[1..]);
      LastCallPrepend(step.1, Run(step.0, es[1..]).1);
    }
  }

  /** Two clicks on the same segment restore the state exactly when that
      segment or nothing was selected to begin with; from a different
      selection they leave nothing selected. */
  lemma DoubleClick(s: State, i: nat)
    ensures var t := Step(Step(s, Click(Some(i))).0, Click(Some(i))).0;
            (t == s <==> s.selected == None || s.selected == Some(i))
            && (s.selected != None && s.selected != Some(i) ==> t.selected == None)
  {
  }
}
