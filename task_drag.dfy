/**
 * The drag controller of `useTaskDrag`: the per-action bar arithmetic
 * (`getNextCoordinates`, `getNextTsDiff`) and the state machine that replaces
 * its single in-progress record on drag start, pointer move, auto-scroll tick
 * and release. The cursor transform into SVG space, timers and the React
 * lifecycle stay outside; their results arrive as parameters.
 */
module TaskDrag {
  import opened Types

  /** Width in pixels of the band along each viewport edge that triggers auto-scroll. */
  const SideScrollAreaWidth: real := 70.0

  /** What the controller is configured with; collaborators whose source is not shown are parameters. */
  datatype DragConfig = DragConfig(
    rtl: bool,
    // SCROLL_STEP
    scrollStep: real,
    // handleTaskBySVGMouseEvent(action, task, initialCoordinates, coordinates, xStep, timeStep, rtl)
    // as (isChanged, changedTask), with the steps and rtl bound in
    handleTaskBySVGMouseEvent: (BarMoveAction, Task, TaskCoordinates, TaskCoordinates) -> (bool, Task),
    // roundTaskDates(task, roundDate, action, dateMoveStep)
    roundTaskDates: (Task, BarMoveAction) -> Task,
    // getTaskCoordinates(task, mapTaskToCoordinates)
    getTaskCoordinates: Task -> TaskCoordinates)

  function Max(a: real, b: real): real { if a >= b then a else b }
  function Min(a: real, b: real): real { if a <= b then a else b }

  /** The progress bar's width over a bar of length `len` at `progress` percent. */
  function ProgressWidth(len: real, progress: real): real { len * progress * 0.01 }

  /**
   * The bar geometry for pointer position `nextX` and the coordinate delta
   * that goes with it. Resizes are clamped so the bar never inverts, a move
   * keeps the bar's length, and a progress drag stays on the bar.
   */
  function NextCoordinates(task: Task, prev: ChangeInProgress, nextX: real, rtl: bool): (r: (TaskCoordinates, real))
    ensures var init := prev.initialCoordinates; var nextX2 := r.0.x2 + prev.additionalLeftSpace;
      prev.action == End ==>
        && nextX2 >= init.x1
        && (nextX >= init.x1 ==> nextX2 == nextX)
        && (nextX < init.x1 ==> nextX2 == init.x1)
        && r.1 == nextX2 - init.x2
        && r.0.width == init.width + r.1
        && r.0.innerX2 == nextX2 + prev.additionalLeftSpace
        && r.0.x1 == prev.coordinates.x1 && r.0.y == prev.coordinates.y
    ensures var init := prev.initialCoordinates;
      prev.action == Start ==>
        && r.0.x1 <= init.x2
        && (nextX <= init.x2 ==> r.0.x1 == nextX)
        && (nextX > init.x2 ==> r.0.x1 == init.x2)
        && r.1 == r.0.x1 - init.x1
        && r.0.width == init.width - r.1
        && r.0.innerX1 == r.0.x1 + prev.additionalLeftSpace
        && r.0.x2 == prev.coordinates.x2 && r.0.y == prev.coordinates.y
    ensures var init := prev.initialCoordinates;
      prev.action == Progress ==>
        && r.1 == 0.0
        && r.0.x1 == prev.coordinates.x1 && r.0.x2 == prev.coordinates.x2 && r.0.width == prev.coordinates.width
        && (init.x1 <= init.x2 ==> 0.0 <= r.0.progressWidth <= init.x2 - init.x1)
        && (rtl ==> r.0.progressX + r.0.progressWidth == init.x2)
        && (rtl && init.x1 <= init.x2 ==> init.x1 <= r.0.progressX <= init.x2)
        // the dragged progress end: the pointer, clamped to the bar
        && var progressEndX := if rtl then r.0.progressX else init.x1 + r.0.progressWidth;
           && (init.x1 <= nextX <= init.x2 ==> progressEndX == nextX)
           && (nextX < init.x1 && init.x1 <= init.x2 ==> progressEndX == init.x1)
           && (nextX > init.x2 ==> progressEndX == init.x2)
    ensures var init := prev.initialCoordinates;
      prev.action == Move ==>
        && r.1 == nextX - prev.startX
        && r.0.x1 == init.x1 + r.1
        && r.0.x2 - r.0.x1 == init.x2 - init.x1
        && r.0.progressX == init.progressX + r.1
        && r.0.innerX1 - r.0.x1 == prev.additionalLeftSpace && r.0.innerX2 - r.0.x2 == prev.additionalLeftSpace
        && r.0.width == prev.coordinates.width
    ensures prev.action.OtherAction? ==> r == (prev.coordinates, prev.coordinatesDiff)
  {
    var init := prev.initialCoordinates;
    var als := prev.additionalLeftSpace;
    match prev.action
    case End =>
      var nextX2 := Max(nextX, init.x1);
      var x2Diff := nextX2 - init.x2;
      var progressWidth := ProgressWidth(nextX2 - init.x1, task.progress);
      if rtl then
        (prev.coordinates.(innerX2 := nextX2 + als, progressWidth := progressWidth,
                           progressX := init.progressX + x2Diff, width := init.width + x2Diff,
                           x2 := nextX2 - als), x2Diff)
      else
        (prev.coordinates.(innerX2 := nextX2 + als, progressWidth := progressWidth,
                           width := init.width + x2Diff, x2 := nextX2 - als), x2Diff)
    case Start =>
      var nextX1 := Min(nextX, init.x2);
      var x1Diff := nextX1 - init.x1;
      var progressWidth := ProgressWidth(init.x2 - nextX1, task.progress);
      if rtl then
        (prev.coordinates.(innerX1 := nextX1 + als, progressWidth := progressWidth,
                           progressX := init.progressX - x1Diff, width := init.width - x1Diff,
                           x1 := nextX1), x1Diff)
      else
        (prev.coordinates.(innerX1 := nextX1 + als, progressX := nextX1, progressWidth := progressWidth,
                           width := init.width - x1Diff, x1 := nextX1), x1Diff)
    case Progress =>
      var nextProgressEndX := Min(Max(nextX, init.x1), init.x2);
      if rtl then
        (prev.coordinates.(progressX := nextProgressEndX, progressWidth := init.x2 - nextProgressEndX), 0.0)
      else
        (prev.coordinates.(progressWidth := nextProgressEndX - init.x1), 0.0)
    case Move =>
      var diff := nextX - prev.startX;
      var nextX1 := init.x1 + diff;
      var nextX2 := init.x2 + diff;
      (prev.coordinates.(innerX1 := nextX1 + als, innerX2 := nextX2 + als,
                         progressX := init.progressX + diff, x1 := nextX1, x2 := nextX2), diff)
    case OtherAction(_) => (prev.coordinates, prev.coordinatesDiff)
  }

  /**
   * The time delta of the edit: shifting the original task's anchor date by it
   * gives the changed task's anchor date. The anchor is the start for a move,
   * and for a resize the dragged side (mirrored in right-to-left mode).
   */
  function NextTsDiff(changedTask: Task, prev: ChangeInProgress, rtl: bool): (r: Ms)
    ensures var task := prev.originalTask;
      (prev.action == Move || (prev.action == Start && !rtl) || (prev.action == End && rtl)) ==>
        && (r.Some? <==> changedTask.start.Some? && task.start.Some?)
        && (r.Some? ==> AddMs(task.start, r) == changedTask.start)
    ensures var task := prev.originalTask;
      ((prev.action == End && !rtl) || (prev.action == Start && rtl)) ==>
        && (r.Some? <==> changedTask.end.Some? && task.end.Some?)
        && (r.Some? ==> AddMs(task.end, r) == changedTask.end)
    ensures prev.action == Progress ==> r == Some(0)
    ensures prev.action.OtherAction? ==> r == prev.tsDiff
  {
    var task := prev.originalTask;
    match prev.action
    case End => if rtl then Sub(changedTask.start, task.start) else Sub(changedTask.end, task.end)
    case Start => if rtl then Sub(changedTask.end, task.end) else Sub(changedTask.start, task.start)
    case Progress => Some(0)
    case Move => Sub(changedTask.start, task.start)
    case OtherAction(_) => prev.tsDiff
  }

  /** The record a drag start creates, at cursor position `cursorX` in SVG space. */
  function Started(cfg: DragConfig, action: BarMoveAction, task: Task, cursorX: real): ChangeInProgress {
    var coordinates := cfg.getTaskCoordinates(task);
    ChangeInProgress(action, 0.0, 0.0, task, coordinates, 0.0, coordinates, cursorX, cursorX, task, Some(0))
  }

  /** The record after the pointer moved to `nextX`. */
  function Recounted(cfg: DragConfig, c: ChangeInProgress, nextX: real): ChangeInProgress {
    var next := NextCoordinates(c.originalTask, c, nextX - c.additionalLeftSpace, cfg.rtl);
    var newChangedTask := cfg.handleTaskBySVGMouseEvent(c.action, c.originalTask, c.initialCoordinates, next.0).1;
    c.(changedTask := newChangedTask, coordinates := next.0, coordinatesDiff := next.1,
       lastClientX := nextX, tsDiff := NextTsDiff(newChangedTask, c, cfg.rtl))
  }

  /**
   * The record after a tick at the left edge of a chart that cannot scroll
   * further left: one step of extra left space, container and bar start one
   * step further left; a move shifts the whole bar, a start resize widens it.
   */
  function GrowLeft(cfg: DragConfig, c: ChangeInProgress): (r: ChangeInProgress)
    ensures var step := cfg.scrollStep; var k := c.coordinates; var rk := r.coordinates;
      && SameDrag(c, r)
      && r.additionalLeftSpace == c.additionalLeftSpace + step && r.additionalRightSpace == c.additionalRightSpace
      && r.coordinatesDiff == c.coordinatesDiff - step && r.lastClientX == c.lastClientX
      && rk.containerX == k.containerX - step && rk.containerWidth == k.containerWidth + step
      && rk.x1 == k.x1 - step && rk.progressX == k.progressX - step
      && (c.action == Move ==> rk.x2 == k.x2 - step && rk.width == k.width)
      && (c.action != Move ==> rk.x2 == k.x2)
      && (c.action == Start ==> rk.width == k.width + step)
      && rk.y == k.y && rk.innerX1 == k.innerX1 && rk.progressWidth == k.progressWidth
      && r.changedTask == cfg.handleTaskBySVGMouseEvent(c.action, c.originalTask, c.initialCoordinates, rk).1
      && r.tsDiff == NextTsDiff(r.changedTask, c, cfg.rtl)
  {
    var step := cfg.scrollStep;
    var k := c.coordinates;
    var nextCoordinates := k.(
      containerX := k.containerX - step,
      containerWidth := k.containerWidth + step,
      innerX2 := if c.action == Start then k.innerX2 + step else k.innerX2,
      progressX := k.progressX - step,
      width := if c.action == Start then k.width + step else k.width,
      x1 := k.x1 - step,
      x2 := if c.action == Move then k.x2 - step else k.x2);
    var newChangedTask := cfg.handleTaskBySVGMouseEvent(c.action, c.originalTask, c.initialCoordinates, nextCoordinates).1;
    c.(additionalLeftSpace := c.additionalLeftSpace + step, changedTask := newChangedTask,
       coordinates := nextCoordinates, coordinatesDiff := c.coordinatesDiff - step,
       tsDiff := NextTsDiff(newChangedTask, c, cfg.rtl))
  }

  /**
   * The record after a tick at the right edge of a chart scrolled to its end:
   * one step of extra right space, pointer and bar end one step further
   * right; a move shifts the whole bar, an end resize widens it.
   */
  function GrowRight(cfg: DragConfig, c: ChangeInProgress): (r: ChangeInProgress)
    ensures var step := cfg.scrollStep; var k := c.coordinates; var rk := r.coordinates;
      && SameDrag(c, r)
      && r.additionalRightSpace == c.additionalRightSpace + step && r.additionalLeftSpace == c.additionalLeftSpace
      && r.coordinatesDiff == c.coordinatesDiff + step && r.lastClientX == c.lastClientX + step
      && rk.containerX == k.containerX && rk.containerWidth == k.containerWidth + step
      && rk.x2 == k.x2 + step && rk.progressX == k.progressX + step
      && (c.action == Move ==> rk.x1 == k.x1 + step && rk.width == k.width)
      && (c.action != Move ==> rk.x1 == k.x1)
      && (c.action == End ==> rk.width == k.width + step)
      && rk.y == k.y && rk.progressWidth == k.progressWidth
      && r.changedTask == cfg.handleTaskBySVGMouseEvent(c.action, c.originalTask, c.initialCoordinates, rk).1
      && r.tsDiff == NextTsDiff(r.changedTask, c, cfg.rtl)
  {
    var step := cfg.scrollStep;
    var k := c.coordinates;
    var nextCoordinates := k.(
      containerWidth := k.containerWidth + step,
      innerX1 := if c.action == Move then k.innerX1 + step else k.innerX1,
      innerX2 := k.innerX2 + step,
      progressX := k.progressX + step,
      width := if c.action == End then k.width + step else k.width,
      x1 := if c.action == Move then k.x1 + step else k.x1,
      x2 := k.x2 + step);
    var newChangedTask := cfg.handleTaskBySVGMouseEvent(c.action, c.originalTask, c.initialCoordinates, nextCoordinates).1;
    c.(additionalRightSpace := c.additionalRightSpace + step, changedTask := newChangedTask,
       coordinates := nextCoordinates, coordinatesDiff := c.coordinatesDiff + step,
       lastClientX := c.lastClientX + step, tsDiff := NextTsDiff(newChangedTask, c, cfg.rtl))
  }

  /** The scroll callback a tick asks for. */
  datatype ScrollRequest = NoScroll | ScrollLeftStep | ScrollRightStep

  /**
   * One auto-scroll tick: near the left edge a start/move (or end) drag either
   * scrolls left or, at scroll 0, grows the chart on the left; near the right
   * edge an end/move (or start) drag scrolls right or, at the end of the chart,
   * grows it on the right. `None` stands for a `null` scroll or client width.
   */
  function TickOutcome(cfg: DragConfig, c: Option<ChangeInProgress>, scrollX: Option<real>,
                       svgClientWidth: Option<real>, svgWidth: real): (r: (Option<ChangeInProgress>, ScrollRequest))
    ensures c.None? || scrollX.None? ==> r == (c, NoScroll)
    ensures c.Some? && (c.value.action == Progress || c.value.action.OtherAction?) ==> r == (c, NoScroll)
    ensures r.1 == ScrollLeftStep ==> r.0 == Some(Recounted(cfg, c.value, c.value.lastClientX - cfg.scrollStep))
    ensures r.1 == ScrollRightStep ==> r.0 == Some(Recounted(cfg, c.value, c.value.lastClientX + cfg.scrollStep))
    ensures r.1 == NoScroll && r.0 != c ==>
      && c.Some? && scrollX.Some?
      && (scrollX.value > c.value.lastClientX - SideScrollAreaWidth ==> r.0 == Some(GrowLeft(cfg, c.value)))
      && (scrollX.value <= c.value.lastClientX - SideScrollAreaWidth ==> r.0 == Some(GrowRight(cfg, c.value)))
  {
    if c.None? || scrollX.None? then (c, NoScroll)
    else
      var cc := c.value;
      var sx := scrollX.value;
      if sx > cc.lastClientX - SideScrollAreaWidth then
        if cc.action == Start || cc.action == Move then
          if sx > 0.0 then (Some(Recounted(cfg, cc, cc.lastClientX - cfg.scrollStep)), ScrollLeftStep)
          else (Some(GrowLeft(cfg, cc)), NoScroll)
        else if cc.action == End && sx > 0.0 then
          (Some(Recounted(cfg, cc, cc.lastClientX - cfg.scrollStep)), ScrollLeftStep)
        else (c, NoScroll)
      else if svgClientWidth.None? then (c, NoScroll)
      else if sx + svgClientWidth.value < cc.lastClientX + SideScrollAreaWidth then
        var canScroll := svgWidth > sx + svgClientWidth.value;
        if cc.action == End || cc.action == Move then
          if canScroll then (Some(Recounted(cfg, cc, cc.lastClientX + cfg.scrollStep)), ScrollRightStep)
          else (Some(GrowRight(cfg, cc)), NoScroll)
        else if cc.action == Start && canScroll then
          (Some(Recounted(cfg, cc, cc.lastClientX + cfg.scrollStep)), ScrollRightStep)
        else (c, NoScroll)
      else (c, NoScroll)
  }

  /** What a release reports to the host. */
  datatype Emission =
    | NoEmission
    | ProgressChange(task: Task)
    | DateChange(action: BarMoveAction, changedTask: Task, originalTask: Task)

  /** The report of a release: nothing, a progress change, or a rounded date change. */
  function Release(cfg: DragConfig, c: Option<ChangeInProgress>): (e: Emission)
    ensures c.None? ==> e == NoEmission
    ensures c.Some? ==>
      var cc := c.value;
      var result := cfg.handleTaskBySVGMouseEvent(cc.action, cc.originalTask, cc.initialCoordinates, cc.coordinates);
      && (e == NoEmission <==> !result.0)
      && (e.ProgressChange? <==> result.0 && cc.action == Progress)
      && (e.ProgressChange? ==> e.task == result.1)
      && (e.DateChange? <==> result.0 && cc.action != Progress)
      && (e.DateChange? ==> e.action == cc.action && e.originalTask == cc.originalTask
                            && e.changedTask == cfg.roundTaskDates(result.1, cc.action))
  {
    if c.None? then NoEmission
    else
      var cc := c.value;
      var result := cfg.handleTaskBySVGMouseEvent(cc.action, cc.originalTask, cc.initialCoordinates, cc.coordinates);
      if !result.0 then NoEmission
      else if cc.action == Progress then ProgressChange(result.1)
      else DateChange(cc.action, cfg.roundTaskDates(result.1, cc.action), cc.originalTask)
  }

  /**
   * The controller owning the single in-progress edit (`null` when idle).
   * Drag start, pointer move and release store or report what `Started`,
   * `Recounted` and `Release` compute; the tick keeps the interval's own
   * branching, with its calls to `RecountOnMove`, and is proved to agree with
   * `TickOutcome`.
   */
  class DragController {
    var change: Option<ChangeInProgress>
    const cfg: DragConfig

    constructor(cfg: DragConfig)
      ensures this.cfg == cfg && change.None?
    {
      this.cfg := cfg;
      change := None;
    }

    /**
     * `handleTaskDragStart`: ignored while an edit is active or when there is
     * no SVG node (`cursorX` is `None`); otherwise a fresh record.
     */
    method DragStart(action: BarMoveAction, task: Task, cursorX: Option<real>)
      modifies this
      ensures old(change).Some? || cursorX.None? ==> change == old(change)
      ensures old(change).None? && cursorX.Some? ==> change == Some(Started(cfg, action, task, cursorX.value))
    {
      if change.Some? {
        return;
      }
      if cursorX.None? {
        return;
      }
      change := Some(Started(cfg, action, task, cursorX.value));
    }

    /** `recountOnMove`: no-op when idle. */
    method RecountOnMove(nextX: real)
      modifies this
      ensures change == if old(change).None? then None else Some(Recounted(cfg, old(change).value, nextX))
    {
      if change.None? {
        return;
      }
      change := Some(Recounted(cfg, change.value, nextX));
    }

    /** The body of the auto-scroll interval; returns the scroll callback it invokes. */
    method Tick(scrollX: Option<real>, svgClientWidth: Option<real>, svgWidth: real) returns (scroll: ScrollRequest)
      modifies this
      ensures (change, scroll) == TickOutcome(cfg, old(change), scrollX, svgClientWidth, svgWidth)
    {
      TickScrollsWhenRoom(cfg, change, scrollX, svgClientWidth, svgWidth);
      scroll := NoScroll;
      if change.None? || scrollX.None? {
        return;
      }
      var current := change.value;
      var sx := scrollX.value;
      if sx > current.lastClientX - SideScrollAreaWidth {
        if current.action == Start || current.action == Move {
          if sx > 0.0 {
            RecountOnMove(current.lastClientX - cfg.scrollStep);
            scroll := ScrollLeftStep;
          } else {
            change := Some(GrowLeft(cfg, current));
          }
        } else if current.action == End {
          if sx > 0.0 {
            RecountOnMove(current.lastClientX - cfg.scrollStep);
            scroll := ScrollLeftStep;
          }
        }
        return;
      }
      if svgClientWidth.None? {
        return;
      }
      if sx + svgClientWidth.value < current.lastClientX + SideScrollAreaWidth {
        if current.action == End || current.action == Move {
          if svgWidth > sx + svgClientWidth.value {
            RecountOnMove(current.lastClientX + cfg.scrollStep);
            scroll := ScrollRightStep;
          } else {
            change := Some(GrowRight(cfg, current));
          }
        } else if current.action == Start {
          if svgWidth > sx + svgClientWidth.value {
            RecountOnMove(current.lastClientX + cfg.scrollStep);
            scroll := ScrollRightStep;
          }
        }
      }
    }

    /** `handleUp`: always clears the record and reports the outcome. */
    method Up() returns (e: Emission)
      modifies this
      ensures change.None?
      ensures e == Release(cfg, old(change))
    {
      e := Release(cfg, change);
      change := None;
    }
  }

  // ---------------------------------------------------------------------------
  // Properties

  /** A new drag starts from the task itself: nothing changed yet, cursor at the start point. */
  lemma StartedIsPristine(cfg: DragConfig, action: BarMoveAction, task: Task, cursorX: real)
    ensures var c := Started(cfg, action, task, cursorX);
      && c.changedTask == task && c.originalTask == task
      && c.tsDiff == Some(0) && c.coordinatesDiff == 0.0
      && c.additionalLeftSpace == 0.0 && c.additionalRightSpace == 0.0
      && c.startX == c.lastClientX == cursorX
      && c.coordinates == c.initialCoordinates == cfg.getTaskCoordinates(task)
  {
  }

  /** The parts of a drag that no move or tick changes. */
  predicate SameDrag(a: ChangeInProgress, b: ChangeInProgress) {
    && a.action == b.action
    && a.originalTask == b.originalTask
    && a.initialCoordinates == b.initialCoordinates
    && a.startX == b.startX
  }

  /**
   * A tick never starts or ends a drag, keeps its identity, and (with a
   * positive step) never shrinks the extra space added on either side.
   */
  lemma TickKeepsDrag(cfg: DragConfig, c: Option<ChangeInProgress>, scrollX: Option<real>,
                      svgClientWidth: Option<real>, svgWidth: real)
    requires cfg.scrollStep > 0.0
    ensures var r := TickOutcome(cfg, c, scrollX, svgClientWidth, svgWidth);
      && (r.0.Some? <==> c.Some?)
      && (c.None? ==> r.1 == NoScroll)
      && (c.Some? ==>
            && SameDrag(c.value, r.0.value)
            && r.0.value.additionalLeftSpace >= c.value.additionalLeftSpace
            && r.0.value.additionalRightSpace >= c.value.additionalRightSpace)
  {
  }

  /** A scroll request is only made when there is room to scroll that way. */
  lemma TickScrollsOnlyWithRoom(cfg: DragConfig, c: Option<ChangeInProgress>, scrollX: Option<real>,
                                svgClientWidth: Option<real>, svgWidth: real)
    ensures var r := TickOutcome(cfg, c, scrollX, svgClientWidth, svgWidth);
      && (r.1 == ScrollLeftStep ==> scrollX.Some? && scrollX.value > 0.0 && c.value.action != Progress)
      && (r.1 == ScrollRightStep ==>
            scrollX.Some? && svgClientWidth.Some? && svgWidth > scrollX.value + svgClientWidth.value)
      && (r.1 != NoScroll ==> r.0 == Some(Recounted(cfg, c.value,
            c.value.lastClientX + (if r.1 == ScrollLeftStep then -cfg.scrollStep else cfg.scrollStep))))
  {
    TickScrollsWhenRoom(cfg, c, scrollX, svgClientWidth, svgWidth);
  }

  /**
   * The converse of `TickScrollsOnlyWithRoom`: a drag of the right kind near an
   * edge with room to scroll that way always asks for the scroll; without room
   * it grows the chart or does nothing.
   */
  lemma TickScrollsWhenRoom(cfg: DragConfig, c: Option<ChangeInProgress>, scrollX: Option<real>,
                            svgClientWidth: Option<real>, svgWidth: real)
    // in the left zone: a resize or move scrolls left when it can, else a start or move grows the chart
    ensures var r := TickOutcome(cfg, c, scrollX, svgClientWidth, svgWidth);
      c.Some? && scrollX.Some? && scrollX.value > c.value.lastClientX - SideScrollAreaWidth ==>
        var cc := c.value;
        var sx := scrollX.value;
        && (sx > 0.0 && (cc.action == Start || cc.action == Move || cc.action == End) ==>
              r == (Some(Recounted(cfg, cc, cc.lastClientX - cfg.scrollStep)), ScrollLeftStep))
        && (sx <= 0.0 && (cc.action == Start || cc.action == Move) ==> r == (Some(GrowLeft(cfg, cc)), NoScroll))
        && (sx <= 0.0 && cc.action == End ==> r == (c, NoScroll))
    // outside it: in the right zone a resize or move scrolls right when it can, else an end or move grows the chart
    ensures var r := TickOutcome(cfg, c, scrollX, svgClientWidth, svgWidth);
      c.Some? && scrollX.Some? && scrollX.value <= c.value.lastClientX - SideScrollAreaWidth ==>
        var cc := c.value;
        var sx := scrollX.value;
        && (svgClientWidth.None? || sx + svgClientWidth.value >= cc.lastClientX + SideScrollAreaWidth ==> r == (c, NoScroll))
        && (svgClientWidth.Some? && sx + svgClientWidth.value < cc.lastClientX + SideScrollAreaWidth ==>
              var canScroll := svgWidth > sx + svgClientWidth.value;
              && (canScroll && (cc.action == End || cc.action == Move || cc.action == Start) ==>
                    r == (Some(Recounted(cfg, cc, cc.lastClientX + cfg.scrollStep)), ScrollRightStep))
              && (!canScroll && (cc.action == End || cc.action == Move) ==> r == (Some(GrowRight(cfg, cc)), NoScroll))
              && (!canScroll && cc.action == Start ==> r == (c, NoScroll)))
  {
  }

  /**
   * At the left edge of a chart already at scroll 0, a start or move drag grows
   * the chart: the extra left space grows by one step and the bar moves left by one.
   */
  lemma LeftEdgeGrowsChart(cfg: DragConfig, c: ChangeInProgress, scrollX: real,
                           svgClientWidth: Option<real>, svgWidth: real)
    requires c.action == Start || c.action == Move
    requires scrollX > c.lastClientX - SideScrollAreaWidth && scrollX <= 0.0
    ensures var r := TickOutcome(cfg, Some(c), Some(scrollX), svgClientWidth, svgWidth);
      && r.1 == NoScroll
      && r.0.Some?
      && r.0.value.additionalLeftSpace == c.additionalLeftSpace + cfg.scrollStep
      && r.0.value.coordinatesDiff == c.coordinatesDiff - cfg.scrollStep
      && r.0.value.coordinates.x1 == c.coordinates.x1 - cfg.scrollStep
      && r.0.value.lastClientX == c.lastClientX
      && r.0.value.additionalRightSpace == c.additionalRightSpace
  {
  }

  /**
   * At the right edge of a chart scrolled to its end, an end or move drag grows
   * the chart: extra right space, pointer position and bar end all advance one step.
   */
  lemma RightEdgeGrowsChart(cfg: DragConfig, c: ChangeInProgress, scrollX: real,
                            svgClientWidth: real, svgWidth: real)
    requires c.action == End || c.action == Move
    requires scrollX <= c.lastClientX - SideScrollAreaWidth
    requires scrollX + svgClientWidth < c.lastClientX + SideScrollAreaWidth
    requires svgWidth <= scrollX + svgClientWidth
    ensures var r := TickOutcome(cfg, Some(c), Some(scrollX), Some(svgClientWidth), svgWidth);
      && r.1 == NoScroll
      && r.0.Some?
      && r.0.value.additionalRightSpace == c.additionalRightSpace + cfg.scrollStep
      && r.0.value.lastClientX == c.lastClientX + cfg.scrollStep
      && r.0.value.coordinatesDiff == c.coordinatesDiff + cfg.scrollStep
      && r.0.value.coordinates.x2 == c.coordinates.x2 + cfg.scrollStep
      && r.0.value.additionalLeftSpace == c.additionalLeftSpace
  {
  }

  /** A pointer move keeps the drag and leaves the pointer where it moved to. */
  lemma RecountedKeepsDrag(cfg: DragConfig, c: ChangeInProgress, nextX: real)
    ensures var r := Recounted(cfg, c, nextX);
      && SameDrag(c, r)
      && r.lastClientX == nextX
      && r.additionalLeftSpace == c.additionalLeftSpace && r.additionalRightSpace == c.additionalRightSpace
      && (c.action == Move ==> r.coordinatesDiff == nextX - c.additionalLeftSpace - c.startX)
      && (c.action == Progress ==> r.coordinatesDiff == 0.0 && r.tsDiff == Some(0))
  {
  }
}
