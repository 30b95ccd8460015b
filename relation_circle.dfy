/**
 * The relation-circle hit test `getRelationCircleByCoordinates`: which task's
 * connector circle, if any, contains a point of the chart, and which end of the
 * task that circle stands for.
 */
module RelationCircle {
  import opened Types

  /** A point in SVG coordinates. */
  datatype Point = Point(x: real, y: real)

  /** The chart's circle geometry and the per-level coordinate lookup (`getCoordinatesOnLevel`). */
  datatype CircleGeometry = CircleGeometry(
    taskHalfHeight: real,
    relationCircleOffset: real,
    relationCircleRadius: real,
    rtl: bool,
    coordinatesOnLevel: string -> TaskCoordinates)

  /** Only real tasks with both dates draw connector circles. */
  predicate HasCircles(t: Task) {
    t.kind != Empty && Dated(t)
  }

  /** `y` lies on the circles' row: within one radius of the bar's vertical centre. */
  predicate OnCircleRow(p: Point, k: TaskCoordinates, g: CircleGeometry) {
    p.y >= k.y + g.taskHalfHeight - g.relationCircleRadius && p.y <= k.y + g.taskHalfHeight + g.relationCircleRadius
  }

  /** `x` lies within one radius of the left circle's centre, one offset before the bar. */
  predicate InLeftCircle(p: Point, k: TaskCoordinates, g: CircleGeometry) {
    p.x >= k.x1 - g.relationCircleOffset - g.relationCircleRadius
    && p.x <= k.x1 - g.relationCircleOffset + g.relationCircleRadius
  }

  /** `x` lies within one radius of the right circle's centre, one offset after the bar. */
  predicate InRightCircle(p: Point, k: TaskCoordinates, g: CircleGeometry) {
    p.x >= k.x2 + g.relationCircleOffset - g.relationCircleRadius
    && p.x <= k.x2 + g.relationCircleOffset + g.relationCircleRadius
  }

  /** The extremity the left (`leftSide`) or right circle stands for; right-to-left mode mirrors it. */
  function SideExtremity(leftSide: bool, rtl: bool): (r: DateExtremity)
    ensures r == StartOfTask <==> leftSide != rtl
  {
    if leftSide == !rtl then StartOfTask else EndOfTask
  }

  /**
   * What the point hits on task `t`: the left circle is tested before the right
   * one, and `None` means no hit.
   */
  function HitOf(p: Point, t: Task, g: CircleGeometry): (r: Option<DateExtremity>)
    ensures r.Some? <==>
      (&& HasCircles(t) && OnCircleRow(p, g.coordinatesOnLevel(t.id), g)
       && (InLeftCircle(p, g.coordinatesOnLevel(t.id), g) || InRightCircle(p, g.coordinatesOnLevel(t.id), g)))
    ensures r.Some? && InLeftCircle(p, g.coordinatesOnLevel(t.id), g) ==> r.value == SideExtremity(true, g.rtl)
    ensures r.Some? && !InLeftCircle(p, g.coordinatesOnLevel(t.id), g) ==> r.value == SideExtremity(false, g.rtl)
  {
    if !HasCircles(t) then None
    else
      var k := g.coordinatesOnLevel(t.id);
      if !OnCircleRow(p, k, g) then None
      else if InLeftCircle(p, k, g) then Some(if g.rtl then EndOfTask else StartOfTask)
      else if InRightCircle(p, k, g) then Some(if g.rtl then StartOfTask else EndOfTask)
      else None
  }

  datatype Hit = Hit(task: Task, extremity: DateExtremity)

  /** The first task in order whose circle contains the point, or `None` (`null`). */
  method GetRelationCircleByCoordinates(p: Point, tasks: seq<Task>, g: CircleGeometry) returns (r: Option<Hit>)
    ensures r.None? <==> forall i :: 0 <= i < |tasks| ==> HitOf(p, tasks[i], g).None?
    ensures r.Some? ==> exists i :: (&& 0 <= i < |tasks|
                                     && tasks[i] == r.value.task
                                     && HitOf(p, tasks[i], g) == Some(r.value.extremity)
                                     && forall j :: 0 <= j < i ==> HitOf(p, tasks[j], g).None?)
  {
    var i := 0;
    while i < |tasks|
      invariant 0 <= i <= |tasks|
      invariant forall j :: 0 <= j < i ==> HitOf(p, tasks[j], g).None?
    {
      var task := tasks[i];
      if task.kind != Empty && task.start.Some? && task.end.Some? {
        var taskCoordinates := g.coordinatesOnLevel(task.id);
        if p.y >= taskCoordinates.y + g.taskHalfHeight - g.relationCircleRadius
           && p.y <= taskCoordinates.y + g.taskHalfHeight + g.relationCircleRadius
        {
          if p.x >= taskCoordinates.x1 - g.relationCircleOffset - g.relationCircleRadius
             && p.x <= taskCoordinates.x1 - g.relationCircleOffset + g.relationCircleRadius
          {
            return Some(Hit(task, if g.rtl then EndOfTask else StartOfTask));
          }
          if p.x >= taskCoordinates.x2 + g.relationCircleOffset - g.relationCircleRadius
             && p.x <= taskCoordinates.x2 + g.relationCircleOffset + g.relationCircleRadius
          {
            return Some(Hit(task, if g.rtl then StartOfTask else EndOfTask));
          }
        }
      }
      i := i + 1;
    }
    return None;
  }

  /** Right-to-left mode swaps the extremity of every hit and changes nothing else. */
  lemma RtlMirrorsHits(p: Point, t: Task, g: CircleGeometry)
    ensures var ltr := HitOf(p, t, g.(rtl := false));
      var mirrored := HitOf(p, t, g.(rtl := true));
      && (ltr.None? <==> mirrored.None?)
      && (ltr.Some? ==> (ltr.value == StartOfTask <==> mirrored.value == EndOfTask))
  {
  }

  /** Where the two circles overlap, the left circle wins. */
  lemma OverlapPrefersLeftCircle(p: Point, t: Task, g: CircleGeometry)
    requires HasCircles(t)
    requires var k := g.coordinatesOnLevel(t.id);
      OnCircleRow(p, k, g) && InLeftCircle(p, k, g) && InRightCircle(p, k, g)
    ensures HitOf(p, t, g) == Some(SideExtremity(true, g.rtl))
  {
  }
}
