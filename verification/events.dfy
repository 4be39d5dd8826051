/** The events the chart containers react to, and what they report to
    their `onSegmentSelect` callback. Segments are named by index:
    `Some(i)` stands for the segment at position `i`, `None` for null. */
module Events {
  import opened Wrappers

  /** A hover reported by the chart (`handleSegmentHover`), a click
      reported by the chart (`handleSegmentClick`), or a `mousedown`
      anywhere outside the container. */
  datatype Event = Hover(target: Option<nat>) | Click(target: Option<nat>) | OutsideDown

  /** What a transition reports to `onSegmentSelect`: nothing, or a call
      with a segment or null. */
  datatype Notice = Silent | Notify(segment: Option<nat>)

  /** A notice that hands a segment (not null) to the parent. */
  predicate Navigates(n: Notice) {
    n.Notify? && n.segment.Some?
  }
}
